/** Visitor and page identity: the cookie jar, find-or-create of a token
    cookie, and the order in which each engine looks for the visitor token.
    The jar is the host's cookie store seen as a dictionary from cookie
    name to value; cookie attributes (expiry, domain) are not modelled.
    A fresh token is the value `uuid()` returns, passed in as an argument:
    any version-4 UUID, which every draw of `Utils.Uuid` is. */
module Identity {
  import opened Js
  import opened Utils

  const VisitorTokenKey: string := "wt_visitor_token"
  const PageUuidKey: string := "wt_page_uuid"

  type Jar = map<string, string>

  /** `Cookie.get(key)` is truthy: the cookie exists and is not empty. */
  predicate HasToken(jar: Jar, key: string)
  {
    key in jar && jar[key] != ""
  }

  /** `findOrSetCookie(key)` (`retrieveFromCookie` in the previous engine,
      `retrieveVisitorToken` in the oldest): the stored token when there is
      one, otherwise a fresh uuid that is also stored under `key`. */
  function FindOrSetCookie(jar: Jar, key: string, drawn: string): (r: (string, Jar))
    requires IsUuidV4(drawn)
    ensures HasToken(r.1, key) && r.1[key] == r.0
    ensures HasToken(jar, key) ==> r == (jar[key], jar)
    ensures !HasToken(jar, key) ==> r.0 == drawn && r.1 == jar[key := r.0]
  {
    if HasToken(jar, key) then (jar[key], jar)
    else
      assert |drawn| == 36;
      (drawn, jar[key := drawn])
  }

  /** Once the cookie is set, asking again returns the same token and
      leaves the jar alone, whatever the random draw. */
  lemma FindOrSetCookieStable(jar: Jar, key: string, drawn: string, drawn': string)
    requires IsUuidV4(drawn) && IsUuidV4(drawn')
    ensures var r := FindOrSetCookie(jar, key, drawn);
            FindOrSetCookie(r.1, key, drawn') == r
  {
  }

  /** The index.js `retrievePageUUIDToken`: the stored page token, or a drawn
      uuid that is NOT stored, so every call without the cookie mints anew. */
  function PeekOrMint(jar: Jar, key: string, drawn: string): (token: string)
    requires IsUuidV4(drawn)
    ensures token == FindOrSetCookie(jar, key, drawn).0
  {
    if HasToken(jar, key) then jar[key] else drawn
  }

  /** `a || b`: the first operand when truthy, the second otherwise. */
  function Or(a: Value, b: Value): Value
  {
    if Truthy(a) then a else b
  }

  /** The parsed `wvt` query parameter as a value (`undefined` when absent). */
  function QueryToken(wvt: Option<string>): Value
  {
    if wvt.Some? then Str(wvt.value) else Undefined
  }

  /** `getVisitorToken()` of src/client.ts: the configured `visitorToken`
      when truthy, else the `wvt` query parameter when non-empty, else the
      visitor cookie, created when missing. The jar changes only in the
      last case. */
  function ClientVisitorToken(configured: Value, wvt: Option<string>, jar: Jar, drawn: string): (r: (Value, Jar))
    requires IsUuidV4(drawn)
  {
    if Truthy(configured) then (configured, jar)
    else if wvt.Some? && wvt.value != "" then (Str(wvt.value), jar)
    else
      var c := FindOrSetCookie(jar, VisitorTokenKey, drawn);
      (Str(c.0), c.1)
  }

  /** The token is the `||` chain of the three sources, left to right, and
      the cookie is consulted (and possibly written) only when both earlier
      sources are falsy. */
  lemma ClientVisitorTokenIsOrChain(configured: Value, wvt: Option<string>, jar: Jar, drawn: string)
    requires IsUuidV4(drawn)
    ensures var cookie := FindOrSetCookie(jar, VisitorTokenKey, drawn);
            ClientVisitorToken(configured, wvt, jar, drawn).0
              == Or(configured, Or(QueryToken(wvt), Str(cookie.0)))
    ensures ClientVisitorToken(configured, wvt, jar, drawn).1
              == if Truthy(configured) || Truthy(QueryToken(wvt)) then jar
                 else FindOrSetCookie(jar, VisitorTokenKey, drawn).1
  {
    var cookie := FindOrSetCookie(jar, VisitorTokenKey, drawn);
    assert Truthy(Str(cookie.0));
    if !Truthy(configured) {
      assert Truthy(QueryToken(wvt)) <==> wvt.Some? && wvt.value != "";
    }
  }

  /** Resolving the visitor token twice gives the same token, and the
      second resolution does not touch the jar. */
  lemma {:induction false} ClientVisitorTokenStable(configured: Value, wvt: Option<string>, jar: Jar, drawn: string, drawn': string)
    requires IsUuidV4(drawn) && IsUuidV4(drawn')
    ensures var r := ClientVisitorToken(configured, wvt, jar, drawn);
            ClientVisitorToken(configured, wvt, r.1, drawn') == r
  {
    if !Truthy(configured) && !(wvt.Some? && wvt.value != "") {
      FindOrSetCookieStable(jar, VisitorTokenKey, drawn, drawn');
    }
  }

  /** `retrieveVisitorToken` of src/wt.ts: the `wvt` query parameter when
      non-empty, else the visitor cookie, created when missing. */
  function WtVisitorToken(wvt: Option<string>, jar: Jar, drawn: string): (r: (string, Jar))
    requires IsUuidV4(drawn)
    ensures r.0 != ""
    ensures wvt.Some? && wvt.value != "" ==> r == (wvt.value, jar)
    ensures !(wvt.Some? && wvt.value != "") ==> r == FindOrSetCookie(jar, VisitorTokenKey, drawn)
  {
    if wvt.Some? && wvt.value != "" then (wvt.value, jar)
    else FindOrSetCookie(jar, VisitorTokenKey, drawn)
  }

  /** The previous engine resolves exactly as the current one does when no
      token is configured. */
  lemma WtAgreesWithClientUnconfigured(configured: Value, wvt: Option<string>, jar: Jar, drawn: string)
    requires IsUuidV4(drawn) && !Truthy(configured)
    ensures var w := WtVisitorToken(wvt, jar, drawn);
            ClientVisitorToken(configured, wvt, jar, drawn) == (Str(w.0), w.1)
  {
  }
}

/** What the engines read from the page and from their configuration, and
    the pieces all three build in the same way: the per-event environment
    fields, the tracker root and pixel URL, and the debounce options. */
module Host {
  import opened Js
  import opened Utils

  const DebounceMinDefault: int := 500
  const DebounceMaxDefault: int := 1500
  const ExpiresInDays: int := 7300

  /** The page the engine runs in: `location.hostname`, `location.href`,
      `document.referrer`, `navigator.userAgent`, the viewport, and the
      `wvt` parameter as the query-string parser reports it. */
  datatype Context = Context(
    hostname: string,
    href: string,
    referrer: string,
    userAgent: string,
    innerWidth: int,
    innerHeight: int,
    wvt: Option<string>)

  /** `this.pageUuid` as a value: `null` until a page token is known. */
  function PageUuidValue(pageUuid: Option<string>): (v: Value)
    ensures IsNil(v) <==> pageUuid.None?
  {
    if pageUuid.Some? then Str(pageUuid.value) else Null
  }

  /** `getEventEnvironmentArgs()`: `{ url, referrer, page_uuid }`. The
      ensures only spells out the literal for callers;
      `LegacyEvent.EnvironmentAsEarlierEngines` relates it to the earlier
      engines' records. */
  function EventEnv(ctx: Context, pageUuid: Value): (r: Record)
    ensures Wf(r)
    ensures r.keys == ["url", "referrer", "page_uuid"]
    ensures r.vals == map["url" := Str(ctx.href), "referrer" := Str(ctx.referrer), "page_uuid" := pageUuid]
  {
    Record(["url", "referrer", "page_uuid"],
           map["url" := Str(ctx.href), "referrer" := Str(ctx.referrer), "page_uuid" := pageUuid])
  }

  /** `{ width: innerWidth, height: innerHeight }` */
  function Dimensions(ctx: Context): Value
  {
    Obj(Record(["width", "height"], map["width" := Num(ctx.innerWidth), "height" := Num(ctx.innerHeight)]))
  }

  /** `wtConfig.debounce?.<name> ?? fallback`: the fallback when the
      `debounce` option is missing or lacks the field. */
  function DebounceOption(cfg: Record, name: string, fallback: int): (v: Value)
    ensures !IsNil(v)
    ensures !Get(cfg, "debounce").Obj? ==> v == Num(fallback)
    ensures Get(cfg, "debounce").Obj? && !IsNil(Get(Get(cfg, "debounce").rec, name))
            ==> v == Get(Get(cfg, "debounce").rec, name)
    ensures Get(cfg, "debounce").Obj? && IsNil(Get(Get(cfg, "debounce").rec, name))
            ==> v == Num(fallback)
  {
    match Get(cfg, "debounce")
    case Obj(d) => if IsNil(Get(d, name)) then Num(fallback) else Get(d, name)
    case _ => Num(fallback)
  }

  /** `config({debounce: d})` takes effect: the next debouncer waits what
      `d` sets, and the default for a field `d` leaves nil, whatever was
      configured before. */
  lemma DebounceConfigured(cfg: Record, d: Record, name: string, fallback: int)
    requires Wf(cfg)
    ensures var update := Record(["debounce"], map["debounce" := Obj(d)]);
      DebounceOption(Spread(cfg, update), name, fallback)
        == if IsNil(Get(d, name)) then Num(fallback) else Get(d, name)
  {
    var update := Record(["debounce"], map["debounce" := Obj(d)]);
    assert "debounce" in update.keys;
    assert Get(Spread(cfg, update), "debounce") == Obj(d);
  }

  /** A configuration entry that is a non-empty string. */
  function ConfigString(cfg: Record, name: string): (r: Option<string>)
    ensures r.Some? ==> r.value != "" && Get(cfg, name) == Str(r.value)
    ensures r.None? ==> !(Get(cfg, name).Str? && Get(cfg, name).s != "")
  {
    match Get(cfg, name)
    case Str(s) => if s != "" then Some(s) else None
    case _ => None
  }

  /** `getRoot()`: the configured `trackerDomain`, else `//` and the page's
      host name. */
  function GetRoot(cfg: Record, ctx: Context): (root: string)
  {
    var domain := ConfigString(cfg, "trackerDomain");
    if domain.Some? then domain.value else "//" + ctx.hostname
  }

  /** `getUrl()`: the configured `trackerUrl`, else the pixel under the root. */
  function GetUrl(cfg: Record, ctx: Context): (url: string)
  {
    var url := ConfigString(cfg, "trackerUrl");
    if url.Some? then url.value else GetRoot(cfg, ctx) + "/track.gif"
  }

  /** The address `sendToServer` posts to: `${getRoot()}/wt/t`. */
  function SendUrl(cfg: Record, ctx: Context): string
  {
    GetRoot(cfg, ctx) + "/wt/t"
  }

  /** Without a configured tracker, events go to the page's own host; a
      configured domain or URL replaces the default as a whole. */
  lemma {:induction false} TrackerAddress(cfg: Record, ctx: Context)
    ensures Truthy(Get(cfg, "trackerDomain")) && Get(cfg, "trackerDomain").Str?
            ==> GetRoot(cfg, ctx) == Get(cfg, "trackerDomain").s
    ensures !Truthy(Get(cfg, "trackerDomain")) ==> GetRoot(cfg, ctx) == "//" + ctx.hostname
    ensures Truthy(Get(cfg, "trackerUrl")) && Get(cfg, "trackerUrl").Str?
            ==> GetUrl(cfg, ctx) == Get(cfg, "trackerUrl").s
    ensures !Truthy(Get(cfg, "trackerUrl")) ==> GetUrl(cfg, ctx) == GetRoot(cfg, ctx) + "/track.gif"
    ensures !Truthy(Get(cfg, "trackerUrl")) && !Truthy(Get(cfg, "trackerDomain"))
            ==> GetUrl(cfg, ctx) == "//" + ctx.hostname + "/track.gif"
  {
    var d := ConfigString(cfg, "trackerDomain");
    var u := ConfigString(cfg, "trackerUrl");
    if !Truthy(Get(cfg, "trackerDomain")) {
      assert d.None?;
    }
    if !Truthy(Get(cfg, "trackerUrl")) {
      assert u.None?;
    }
  }
}

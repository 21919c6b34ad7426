/** The pure helpers shared by the three engines (src/utils.ts, with the
    same algorithms in src/utils.js): `isNil`/`omitBy`, `snakeCaseKeys`,
    the version-4 `uuid` template filler and `resolveMethod`/`isFunction`. */
module Utils {
  import opened Js

  // ---------------------------------------------------------------------
  // isNil / omitBy

  /** `val === null || val === undefined` */
  predicate IsNil(v: Value)
  {
    v.Null? || v.Undefined?
  }

  /** The keys of `ks`, in order, whose value the predicate does not drop. */
  function KeptKeys(obj: Record, ks: seq<string>, drop: (Value, string) -> bool): seq<string>
  {
    if ks == [] then []
    else if drop(Get(obj, ks[0]), ks[0]) then KeptKeys(obj, ks[1..], drop)
    else [ks[0]] + KeptKeys(obj, ks[1..], drop)
  }

  /** The reduce inside `omitBy`: `memo` grows by `{...memo, [key]: obj[key]}`
      for every key of `ks` the predicate keeps. */
  function OmitFrom(memo: Record, obj: Record, ks: seq<string>, drop: (Value, string) -> bool): (r: Record)
    requires Wf(memo)
    ensures Wf(r)
    decreases |ks|
  {
    if ks == [] then memo
    else
      var k := ks[0];
      OmitFrom(if drop(Get(obj, k), k) then memo else Put(memo, k, Get(obj, k)), obj, ks[1..], drop)
  }

  lemma {:induction false} OmitFromContents(memo: Record, obj: Record, ks: seq<string>, drop: (Value, string) -> bool)
    requires Wf(memo)
    ensures var r := OmitFrom(memo, obj, ks, drop);
      && (forall k :: k in r.vals <==> k in memo.vals || (k in ks && !drop(Get(obj, k), k)))
      && (forall k :: k in ks && !drop(Get(obj, k), k) ==> r.vals[k] == Get(obj, k))
      && (forall k :: k in memo.vals && k !in ks ==> r.vals[k] == memo.vals[k])
    decreases |ks|
  {
    if ks != [] {
      var k := ks[0];
      var memo' := if drop(Get(obj, k), k) then memo else Put(memo, k, Get(obj, k));
      OmitFromContents(memo', obj, ks[1..], drop);
      assert forall j :: j in ks <==> j == k || j in ks[1..];
    }
  }

  lemma {:induction false} OmitFromOrder(memo: Record, obj: Record, ks: seq<string>, drop: (Value, string) -> bool)
    requires Wf(memo)
    requires DistinctKeys(ks) && forall k :: k in ks ==> k !in memo.vals
    ensures OmitFrom(memo, obj, ks, drop).keys == memo.keys + KeptKeys(obj, ks, drop)
    decreases |ks|
  {
    if ks != [] {
      var k := ks[0];
      DistinctTail(ks);
      if drop(Get(obj, k), k) {
        OmitFromOrder(memo, obj, ks[1..], drop);
      } else {
        var memo' := Put(memo, k, Get(obj, k));
        OmitFromOrder(memo', obj, ks[1..], drop);
        AppendAssoc(memo.keys, [k], KeptKeys(obj, ks[1..], drop));
      }
    }
  }

  lemma AppendAssoc(a: seq<string>, b: seq<string>, c: seq<string>)
    ensures (a + b) + c == a + (b + c)
  {
  }

  /** The keys after the first of distinct keys are distinct and differ
      from the first. */
  lemma DistinctTail(ks: seq<string>)
    requires DistinctKeys(ks) && ks != []
    ensures DistinctKeys(ks[1..]) && ks[0] !in ks[1..]
  {
    assert forall i :: 0 < i < |ks| ==> ks[i] != ks[0];
  }

  /** `omitBy(obj, fn)`: exactly the keys whose value `fn` rejects are gone,
      and the others keep their value. */
  function OmitBy(obj: Record, drop: (Value, string) -> bool): (r: Record)
    ensures Wf(r)
    ensures forall k :: k in r.vals <==> k in obj.keys && !drop(Get(obj, k), k)
    ensures forall k :: k in r.vals ==> r.vals[k] == Get(obj, k)
  {
    OmitFromContents(Empty, obj, obj.keys, drop);
    OmitFrom(Empty, obj, obj.keys, drop)
  }

  /** The kept keys of `omitBy` stay in the object's order. */
  lemma OmitByKeepsOrder(obj: Record, drop: (Value, string) -> bool)
    requires Wf(obj)
    ensures OmitBy(obj, drop).keys == KeptKeys(obj, obj.keys, drop)
  {
    OmitFromOrder(Empty, obj, obj.keys, drop);
  }

  /** `omitBy(obj, isNil)`, the last step of building every event record. */
  function OmitNil(obj: Record): (r: Record)
    ensures Wf(r)
    ensures forall k :: k in r.vals <==> k in obj.keys && !IsNil(Get(obj, k))
    ensures forall k :: k in r.vals ==> r.vals[k] == Get(obj, k) && !IsNil(r.vals[k])
  {
    OmitBy(obj, (v, k) => IsNil(v))
  }

  // ---------------------------------------------------------------------
  // snakeCaseKeys

  predicate IsLower(c: char) { 'a' <= c <= 'z' }
  predicate IsUpper(c: char) { 'A' <= c <= 'Z' }

  /** `toLowerCase` on one character (ASCII letters). */
  function LowerChar(c: char): (d: char)
    ensures !IsUpper(d)
    ensures !IsUpper(c) ==> d == c
  {
    if IsUpper(c) then (c as int + 32) as char else c
  }

  function Lower(s: string): (r: string)
    ensures |r| == |s|
    ensures forall i :: 0 <= i < |s| ==> r[i] == LowerChar(s[i])
  {
    seq(|s|, i requires 0 <= i < |s| => LowerChar(s[i]))
  }

  /** A lower-case letter followed by an upper-case one starts `s`. */
  predicate StartsCamelPair(s: string)
  {
    |s| >= 2 && IsLower(s[0]) && IsUpper(s[1])
  }

  /** `s.replace(/([a-z])([A-Z])/g, '$1_$2')`: a left-to-right scan for
      non-overlapping lower-upper pairs. */
  function SplitCamel(s: string): string
    decreases |s|
  {
    if s == [] then []
    else if StartsCamelPair(s) then [s[0], '_', s[1]] + SplitCamel(s[2..])
    else [s[0]] + SplitCamel(s[1..])
  }

  /** Reference definition: one `_` after every character that is a
      lower-case letter followed by an upper-case one. */
  function UnderscoreAtBoundaries(s: string): string
    decreases |s|
  {
    if s == [] then []
    else if StartsCamelPair(s) then [s[0], '_'] + UnderscoreAtBoundaries(s[1..])
    else [s[0]] + UnderscoreAtBoundaries(s[1..])
  }

  /** A match consumes its upper-case letter, which cannot start another
      match, so the non-overlapping scan misses no boundary. */
  lemma {:induction false} SplitCamelMarksEveryBoundary(s: string)
    ensures SplitCamel(s) == UnderscoreAtBoundaries(s)
    decreases |s|
  {
    if s == [] {
    } else if StartsCamelPair(s) {
      var t := s[1..];
      assert t != [] && !StartsCamelPair(t) && t[1..] == s[2..];
      SplitCamelMarksEveryBoundary(s[2..]);
      calc {
        UnderscoreAtBoundaries(s);
        [s[0], '_'] + UnderscoreAtBoundaries(t);
        [s[0], '_'] + ([s[1]] + UnderscoreAtBoundaries(s[2..]));
        [s[0], '_', s[1]] + SplitCamel(s[2..]);
        SplitCamel(s);
      }
    } else {
      SplitCamelMarksEveryBoundary(s[1..]);
    }
  }

  /** The key transformation of `snakeCaseKeys`. */
  function SnakeCase(key: string): (r: string)
    ensures forall i :: 0 <= i < |r| ==> !IsUpper(r[i])
  {
    Lower(SplitCamel(key))
  }

  predicate NoUpper(s: string)
  {
    forall i :: 0 <= i < |s| ==> !IsUpper(s[i])
  }

  lemma {:induction false} SplitCamelNoUpper(s: string)
    requires NoUpper(s)
    ensures SplitCamel(s) == s
    decreases |s|
  {
    if s != [] {
      assert !StartsCamelPair(s) && NoUpper(s[1..]);
      SplitCamelNoUpper(s[1..]);
      assert [s[0]] + s[1..] == s;
    }
  }

  lemma NoUpperIsFixed(s: string)
    requires NoUpper(s)
    ensures SnakeCase(s) == s
  {
    SplitCamelNoUpper(s);
    assert Lower(s) == s;
  }

  /** A snake-cased key has no upper-case letter left, so snake-casing it
      again changes nothing. */
  lemma SnakeCaseIdempotent(s: string)
    ensures SnakeCase(SnakeCase(s)) == SnakeCase(s)
  {
    NoUpperIsFixed(SnakeCase(s));
  }

  function SnakeAll(ks: seq<string>): (r: seq<string>)
    ensures |r| == |ks| && forall i :: 0 <= i < |ks| ==> r[i] == SnakeCase(ks[i])
  {
    seq(|ks|, i requires 0 <= i < |ks| => SnakeCase(ks[i]))
  }

  /** The reduce inside `snakeCaseKeys`: `acc[snake(key)] = obj[key]`. */
  function SnakeFrom(acc: Record, obj: Record, ks: seq<string>): (r: Record)
    requires Wf(acc)
    ensures Wf(r)
    ensures forall t :: t in r.vals <==> t in acc.vals || t in SnakeAll(ks)
    ensures forall t :: t in acc.vals && t !in SnakeAll(ks) ==> r.vals[t] == acc.vals[t]
    decreases |ks|
  {
    if ks == [] then acc
    else
      assert forall t :: t in SnakeAll(ks) <==> t == SnakeCase(ks[0]) || t in SnakeAll(ks[1..]) by {
        assert SnakeAll(ks) == [SnakeCase(ks[0])] + SnakeAll(ks[1..]);
      }
      SnakeFrom(Put(acc, SnakeCase(ks[0]), Get(obj, ks[0])), obj, ks[1..])
  }

  /** `snakeCaseKeys(obj)`: every key snake-cased, values carried over. */
  function SnakeCaseKeys(obj: Record): (r: Record)
    ensures Wf(r)
    ensures forall t :: t in r.vals <==> t in SnakeAll(obj.keys)
    ensures forall t :: t in r.keys ==> SnakeCase(t) == t
  {
    var r := SnakeFrom(Empty, obj, obj.keys);
    assert forall t :: t in r.keys ==> SnakeCase(t) == t by {
      forall t | t in r.keys ensures SnakeCase(t) == t {
        var i :| 0 <= i < |obj.keys| && SnakeAll(obj.keys)[i] == t;
        SnakeCaseIdempotent(obj.keys[i]);
      }
    }
    r
  }

  lemma {:induction false} SnakeFromLastWins(acc: Record, obj: Record, ks: seq<string>, j: nat)
    requires Wf(acc)
    requires j < |ks|
    requires forall i :: j < i < |ks| ==> SnakeCase(ks[i]) != SnakeCase(ks[j])
    ensures SnakeFrom(acc, obj, ks).vals[SnakeCase(ks[j])] == Get(obj, ks[j])
    decreases |ks|
  {
    if j == 0 {
      SnakeFromHeadWins(acc, obj, ks);
    } else {
      SnakeUniqueInTail(ks, j);
      SnakeFromLastWins(Put(acc, SnakeCase(ks[0]), Get(obj, ks[0])), obj, ks[1..], j - 1);
      assert ks[1..][j - 1] == ks[j];
    }
  }

  /** The first key is written first; when no later key snake-cases to the
      same name, nothing overwrites it. */
  lemma SnakeFromHeadWins(acc: Record, obj: Record, ks: seq<string>)
    requires Wf(acc) && ks != []
    requires forall i :: 0 < i < |ks| ==> SnakeCase(ks[i]) != SnakeCase(ks[0])
    ensures SnakeFrom(acc, obj, ks).vals[SnakeCase(ks[0])] == Get(obj, ks[0])
  {
    forall n | 0 <= n < |ks| - 1 ensures SnakeAll(ks[1..])[n] != SnakeCase(ks[0]) {
      assert ks[1..][n] == ks[n + 1];
    }
  }

  lemma SnakeUniqueInTail(ks: seq<string>, j: nat)
    requires 0 < j < |ks|
    requires forall i :: j < i < |ks| ==> SnakeCase(ks[i]) != SnakeCase(ks[j])
    ensures forall i :: j - 1 < i < |ks| - 1 ==> SnakeCase(ks[1..][i]) != SnakeCase(ks[1..][j - 1])
  {
    forall i | j - 1 < i < |ks| - 1 ensures SnakeCase(ks[1..][i]) != SnakeCase(ks[1..][j - 1]) {
      assert ks[1..][i] == ks[i + 1] && ks[1..][j - 1] == ks[j];
    }
  }

  /** When several keys snake-case to the same name, the one that comes
      last in the object wins; in particular a key no other key collides
      with keeps its value. */
  lemma SnakeCaseKeysLastWins(obj: Record, j: nat)
    requires j < |obj.keys|
    requires forall i :: j < i < |obj.keys| ==> SnakeCase(obj.keys[i]) != SnakeCase(obj.keys[j])
    ensures SnakeCase(obj.keys[j]) in SnakeCaseKeys(obj).vals
    ensures SnakeCaseKeys(obj).vals[SnakeCase(obj.keys[j])] == Get(obj, obj.keys[j])
  {
    SnakeFromLastWins(Empty, obj, obj.keys, j);
  }

  /** The first `i` entries of `r`, as an object. */
  function Prefix(r: Record, i: nat): Record
    requires i <= |r.keys|
  {
    Record(r.keys[..i], map k | k in r.keys[..i] && k in r.vals :: r.vals[k])
  }

  lemma PrefixWf(r: Record, i: nat)
    requires Wf(r) && i <= |r.keys|
    ensures Wf(Prefix(r, i))
  {
    var p := Prefix(r, i);
    assert forall a, b :: 0 <= a < b < |p.keys| ==> p.keys[a] == r.keys[a] && p.keys[b] == r.keys[b];
  }

  lemma PrefixStep(r: Record, i: nat)
    requires Wf(r) && i < |r.keys|
    ensures Wf(Prefix(r, i))
    ensures Put(Prefix(r, i), r.keys[i], Get(r, r.keys[i])) == Prefix(r, i + 1)
  {
    PrefixWf(r, i);
    var k := r.keys[i];
    assert r.keys[..i + 1] == r.keys[..i] + [k];
    assert k !in r.keys[..i] by {
      forall j | 0 <= j < i ensures r.keys[..i][j] != k {
        assert r.keys[j] != r.keys[i];
      }
    }
    assert Put(Prefix(r, i), k, Get(r, k)).vals == Prefix(r, i + 1).vals;
  }

  lemma PrefixAll(r: Record)
    requires Wf(r)
    ensures Prefix(r, |r.keys|) == r
  {
    assert r.keys[..|r.keys|] == r.keys;
    assert Prefix(r, |r.keys|).vals == r.vals;
  }

  lemma {:induction false} SnakeFromRebuilds(r: Record, i: nat)
    requires Wf(r) && i <= |r.keys|
    requires forall t :: t in r.keys ==> SnakeCase(t) == t
    ensures Wf(Prefix(r, i))
    ensures SnakeFrom(Prefix(r, i), r, r.keys[i..]) == r
    decreases |r.keys| - i
  {
    PrefixWf(r, i);
    if i == |r.keys| {
      PrefixAll(r);
    } else {
      var k := r.keys[i];
      var ks := r.keys[i..];
      PrefixStep(r, i);
      assert ks[0] == k && ks[1..] == r.keys[i + 1..];
      assert SnakeCase(k) == k;
      calc {
        SnakeFrom(Prefix(r, i), r, ks);
        SnakeFrom(Put(Prefix(r, i), SnakeCase(k), Get(r, k)), r, ks[1..]);
        SnakeFrom(Prefix(r, i + 1), r, r.keys[i + 1..]);
        { SnakeFromRebuilds(r, i + 1); }
        r;
      }
    }
  }

  /** Applying `snakeCaseKeys` twice is the same as applying it once. */
  lemma SnakeCaseKeysIdempotent(obj: Record)
    ensures SnakeCaseKeys(SnakeCaseKeys(obj)) == SnakeCaseKeys(obj)
  {
    var r := SnakeCaseKeys(obj);
    SnakeFromRebuilds(r, 0);
    assert r.keys[0..] == r.keys;
    assert Prefix(r, 0) == Empty;
  }

  // ---------------------------------------------------------------------
  // uuid

  /** One draw of `(Math.random() * 16) | 0`. */
  newtype Nibble = n: int | 0 <= n < 16

  predicate IsLowerHex(c: char) { '0' <= c <= '9' || 'a' <= c <= 'f' }

  /** `value.toString(16)` for a value below 16. */
  function HexDigit(n: int): (c: char)
    requires 0 <= n < 16
    ensures IsLowerHex(c)
  {
    if n < 10 then ('0' as int + n) as char else ('a' as int + n - 10) as char
  }

  /** `(seed & 0x3) | 0x8`: the RFC 4122 variant nibble. */
  function VariantNibble(seed: Nibble): (v: int)
    ensures 8 <= v <= 11
  {
    (((seed as bv8) & 0x3) | 0x8) as int
  }

  const UuidTemplate: string := "xxxxxxxx-xxxx-4xxx-yxxx-xxxxxxxxxxxx"

  /** How many random draws filling `t` takes: one per `x` or `y`. */
  function Draws(t: string): nat
  {
    if t == [] then 0 else (if t[0] == 'x' || t[0] == 'y' then 1 else 0) + Draws(t[1..])
  }

  /** `r` is `t` with each `x` replaced by a lower-case hex digit and each
      `y` by a variant digit. */
  predicate Fills(t: string, r: string)
  {
    && |r| == |t|
    && (forall i :: 0 <= i < |t| && t[i] == 'x' ==> IsLowerHex(r[i]))
    && (forall i :: 0 <= i < |t| && t[i] == 'y' ==> r[i] in "89ab")
    && (forall i :: 0 <= i < |t| && t[i] != 'x' && t[i] != 'y' ==> r[i] == t[i])
  }

  /** `t.replace(/[xy]/g, ...)`: each `x` becomes a hex digit of its draw,
      each `y` the variant digit of its draw, everything else is kept. */
  function FillTemplate(t: string, seeds: seq<Nibble>): (r: string)
    requires |seeds| == Draws(t)
    ensures Fills(t, r)
    decreases |t|
  {
    if t == [] then []
    else if t[0] == 'x' then [HexDigit(seeds[0] as int)] + FillTemplate(t[1..], seeds[1..])
    else if t[0] == 'y' then [HexDigit(VariantNibble(seeds[0]))] + FillTemplate(t[1..], seeds[1..])
    else [t[0]] + FillTemplate(t[1..], seeds)
  }

  /** The shape the tests check: 36 characters, dashes at 8, 13, 18 and 23,
      version `4` at 14, variant 8-b at 19, lower-case hex elsewhere. */
  predicate IsUuidV4(u: string)
  {
    && |u| == 36
    && u[8] == '-' && u[13] == '-' && u[18] == '-' && u[23] == '-'
    && u[14] == '4'
    && u[19] in "89ab"
    && forall i :: 0 <= i < 36 && i != 8 && i != 13 && i != 18 && i != 23 && i != 14 && i != 19
         ==> IsLowerHex(u[i])
  }

  function Xs(n: nat): (s: string)
    ensures |s| == n && forall i :: 0 <= i < n ==> s[i] == 'x'
  {
    seq(n, _ => 'x')
  }

  lemma {:induction false} DrawsConcat(a: string, b: string)
    ensures Draws(a + b) == Draws(a) + Draws(b)
    decreases |a|
  {
    if a == [] {
      assert a + b == b;
    } else {
      assert (a + b)[0] == a[0] && (a + b)[1..] == a[1..] + b;
      DrawsConcat(a[1..], b);
    }
  }

  lemma {:induction false} DrawsXs(n: nat)
    ensures Draws(Xs(n)) == n
  {
    if n > 0 {
      assert Xs(n) == Xs(n - 1) + "x";
      DrawsXs(n - 1);
      DrawsConcat(Xs(n - 1), "x");
    }
  }

  /** The template's fixed characters: dashes, the version digit, the
      variant placeholder, and `x` everywhere else. */
  predicate IsTemplateShape(t: string)
  {
    && |t| == 36
    && t[8] == '-' && t[13] == '-' && t[18] == '-' && t[23] == '-'
    && t[14] == '4' && t[19] == 'y'
    && forall i :: 0 <= i < 36 && i != 8 && i != 13 && i != 18 && i != 23 && i != 14 && i != 19
         ==> t[i] == 'x'
  }

  lemma TemplateChars()
    ensures IsTemplateShape(UuidTemplate)
  {
  }

  /** Filling a template of that shape gives a version-4 UUID. */
  lemma FilledShape(t: string, r: string)
    requires IsTemplateShape(t) && Fills(t, r)
    ensures IsUuidV4(r)
  {
  }

  lemma DrawsPiece(n: nat, tail: string)
    requires tail == "-" || tail == "-4" || tail == "-y"
    ensures Draws(Xs(n) + tail) == n + (if tail == "-y" then 1 else 0)
  {
    DrawsConcat(Xs(n), tail);
    DrawsXs(n);
    assert "-"[1..] == [] && "-4"[1..] == "4" && "4"[1..] == [] && "-y"[1..] == "y" && "y"[1..] == [];
  }

  lemma DrawsFive(a: string, b: string, c: string, d: string, e: string)
    ensures Draws(a + b + c + d + e) == Draws(a) + Draws(b) + Draws(c) + Draws(d) + Draws(e)
  {
    DrawsConcat(a, b);
    DrawsConcat(a + b, c);
    DrawsConcat(a + b + c, d);
    DrawsConcat(a + b + c + d, e);
  }

  /** The template as runs of `x` and the fixed characters between them. */
  lemma TemplatePieces()
    ensures UuidTemplate == (Xs(8) + "-") + (Xs(4) + "-4") + (Xs(3) + "-y") + (Xs(3) + "-") + Xs(12)
  {
  }

  lemma TemplateDraws()
    ensures Draws(UuidTemplate) == 31
  {
    var a, b, c, d, e := Xs(8) + "-", Xs(4) + "-4", Xs(3) + "-y", Xs(3) + "-", Xs(12);
    TemplatePieces();
    DrawsFive(a, b, c, d, e);
    DrawsPiece(8, "-");
    DrawsPiece(4, "-4");
    DrawsPiece(3, "-y");
    DrawsPiece(3, "-");
    DrawsXs(12);
  }

  /** `uuid()`, with the 31 random draws made explicit. */
  function Uuid(seeds: seq<Nibble>): string
    requires |seeds| == 31
  {
    TemplateDraws();
    FillTemplate(UuidTemplate, seeds)
  }

  /** Every draw gives a version-4 UUID. */
  lemma UuidIsV4(seeds: seq<Nibble>)
    requires |seeds| == 31
    ensures IsUuidV4(Uuid(seeds))
  {
    TemplateChars();
    TemplateDraws();
    FilledShape(UuidTemplate, Uuid(seeds));
  }

  // ---------------------------------------------------------------------
  // resolveMethod / isFunction

  /** An argument of `set`/`config`/`initialize`: a plain value, or a host
      function of the current value. */
  datatype Update<!T> = Plain(value: T) | Fn(apply: T -> T)

  /** `isFunction(val)` */
  predicate IsFunction<T>(u: Update<T>)
  {
    u.Fn?
  }

  /** `resolveMethod(val, current)`: call it if it is a function, else use it.
      The ensures only spells out the definition for callers;
      `ResolvePlainIsConstant` states what it means. */
  function ResolveMethod<T>(u: Update<T>, current: T): (r: T)
    ensures IsFunction(u) ==> r == u.apply(current)
    ensures !IsFunction(u) ==> r == u.value
  {
    match u
    case Plain(v) => v
    case Fn(f) => f(current)
  }

  /** Only a function update reads the current value: a plain value
      resolves alike whatever the state, as the constant function would. */
  lemma ResolvePlainIsConstant<T>(v: T, current: T, other: T)
    ensures ResolveMethod(Plain(v), current) == ResolveMethod(Plain(v), other) == v
    ensures ResolveMethod(Fn(x => v), current) == ResolveMethod(Plain(v), current)
  {
  }
}

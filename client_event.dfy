/** How the current engine (src/client.ts) turns a `track` call into the
    record it queues: `track` resolves the kind, and `addToQueue` merges the
    defaults, the call's parameters, their metadata and the page
    environment, snake-cases the keys and drops nil fields. */
module ClientEvents {
  import opened Js
  import opened Utils
  import opened Host

  /** The argument of `track`: an event kind, or a parameter object. */
  datatype KindOrParams = KindName(kind: string) | Params(params: Record)

  /** The fields the environment and the clock supply; they are written
      after the parameters. */
  const Reserved: set<string> := {"metadata", "url", "referrer", "page_uuid", "ts"}

  /** `{...resolvedParams, kind: resolvedParams.kind ?? 'event'}` */
  function TrackParams(kp: KindOrParams): (p: Record)
    ensures Wf(p)
    ensures "kind" in p.vals && !IsNil(p.vals["kind"])
    ensures kp.KindName? ==> p.vals["kind"] == Str(kp.kind)
    ensures kp.Params? && IsNil(Get(kp.params, "kind")) ==> p.vals["kind"] == Str("event")
    ensures kp.Params? && !IsNil(Get(kp.params, "kind")) ==> p.vals["kind"] == Get(kp.params, "kind")
    ensures kp.Params? ==> forall k :: k != "kind" ==> (k in p.vals <==> k in kp.params.keys)
    ensures kp.Params? ==> forall k :: k != "kind" && k in p.vals ==> p.vals[k] == Get(kp.params, k)
    ensures kp.KindName? ==> forall k :: k in p.vals ==> k == "kind"
  {
    var resolved := match kp
      case KindName(s) => Literal([("kind", Str(s))])
      case Params(r) => r;
    var kind := if IsNil(Get(resolved, "kind")) then Str("event") else Get(resolved, "kind");
    if kp.KindName? then
      LiteralValue([("kind", Str(kp.kind))], 0);
      Put(Spread(Empty, resolved), "kind", kind)
    else
      Put(Spread(Empty, resolved), "kind", kind)
  }

  /** `const { [key]: _, ...rest } = r`: every other own key, in order. */
  function Without(r: Record, key: string): (rest: Record)
    ensures Wf(rest)
    ensures forall k :: k in rest.vals <==> k in r.keys && k != key
    ensures forall k :: k in rest.vals ==> rest.vals[k] == Get(r, k)
  {
    OmitBy(r, (v, k) => k == key)
  }

  /** `const { metadata: { ...defaultMetadata } = {} } = paramDefaults`:
      a copy of the default metadata, `{}` when it is undefined. Rest
      destructuring of `null` throws, which `None` stands for. */
  function DefaultMetadata(defaults: Record): (r: Option<Record>)
    ensures r.None? <==> Get(defaults, "metadata") == Null
    ensures r.Some? ==> Wf(r.value)
    ensures r.Some? && Get(defaults, "metadata").Obj? ==>
      forall k :: (k in r.value.vals <==> k in Get(defaults, "metadata").rec.keys)
    ensures r.Some? && Get(defaults, "metadata").Obj? ==>
      forall k :: k in r.value.vals ==> r.value.vals[k] == Get(Get(defaults, "metadata").rec, k)
    ensures r.Some? && !Get(defaults, "metadata").Obj? ==> r.value == Empty
  {
    match Get(defaults, "metadata")
    case Null => None
    case Obj(m) => Some(Spread(Empty, m))
    case _ => Some(Empty)
  }

  /** `{...acc, ...v}` for an arbitrary value: only an object adds keys. */
  function SpreadValue(acc: Record, v: Value): (r: Record)
    requires Wf(acc)
    ensures Wf(r)
    ensures forall k :: k in r.vals <==> k in acc.vals || (v.Obj? && k in v.rec.keys)
    ensures forall k :: k in r.vals ==>
      r.vals[k] == if v.Obj? && k in v.rec.keys then Get(v.rec, k) else acc.vals[k]
    ensures acc.keys <= r.keys
    ensures !v.Obj? ==> r == acc
  {
    if v.Obj? then Spread(acc, v.rec) else acc
  }

  /** `{ ...defaultMetadata, ...baseMetadata }`: the call's metadata keys
      override the default ones. `None` when the defaults make the
      destructuring throw. */
  function EventMetadata(defaults: Record, params: Record): (r: Option<Record>)
    ensures r.None? <==> Get(defaults, "metadata") == Null
    ensures r.Some? ==> Wf(r.value)
    ensures r.Some? ==> forall k :: k in r.value.vals <==>
      k in DefaultMetadata(defaults).value.vals
      || (Get(params, "metadata").Obj? && k in Get(params, "metadata").rec.keys)
    ensures r.Some? && Get(params, "metadata").Obj? ==>
      forall k :: k in Get(params, "metadata").rec.keys ==>
        r.value.vals[k] == Get(Get(params, "metadata").rec, k)
    ensures r.Some? ==>
      forall k :: k in DefaultMetadata(defaults).value.vals
                  && !(Get(params, "metadata").Obj? && k in Get(params, "metadata").rec.keys)
                  ==> r.value.vals[k] == DefaultMetadata(defaults).value.vals[k]
  {
    var dm := DefaultMetadata(defaults);
    if dm.None? then None else Some(SpreadValue(dm.value, Get(params, "metadata")))
  }

  /** `{...defaultParams, ...baseParams}`: both without `metadata`, the
      call's parameters overriding the defaults. */
  function TopParams(defaults: Record, params: Record): (top: Record)
    ensures Wf(top)
    ensures forall k :: k in top.vals <==> k != "metadata" && (k in defaults.keys || k in params.keys)
    ensures forall k :: k in top.vals && k in params.keys ==> top.vals[k] == Get(params, k)
    ensures forall k :: k in top.vals && k !in params.keys ==> top.vals[k] == Get(defaults, k)
  {
    var dp := Without(defaults, "metadata");
    var bp := Without(params, "metadata");
    assert forall k :: k in dp.keys <==> k in dp.vals;
    assert forall k :: k in bp.keys <==> k in bp.vals;
    Spread(Spread(Empty, dp), bp)
  }

  /** The object literal `addToQueue` builds before snake-casing:
      `{...defaultParams, ...baseParams, metadata, ...env, ts}`. */
  function Merged(md: Record, defaults: Record, params: Record, env: Record, now: int): (m: Record)
    requires Wf(md) && Wf(env)
    ensures Wf(m)
  {
    var withMeta := Put(TopParams(defaults, params), "metadata", if |md.keys| > 0 then Obj(md) else Undefined);
    Put(Spread(withMeta, env), "ts", Num(now))
  }

  /** The record `addToQueue` pushes, or `None` when it throws first. */
  function NewEvent(defaults: Record, params: Record, ctx: Context, pageUuid: Option<string>, now: int): (e: Option<Record>)
    ensures e.None? <==> Get(defaults, "metadata") == Null
    ensures e.Some? ==> Wf(e.value)
    ensures e.Some? ==> forall t :: t in e.value.vals ==> SnakeCase(t) == t && !IsNil(e.value.vals[t])
  {
    var md := EventMetadata(defaults, params);
    if md.None? then None
    else
      var e := OmitNil(SnakeCaseKeys(Merged(md.value, defaults, params, EventEnv(ctx, PageUuidValue(pageUuid)), now)));
      assert forall t :: t in e.vals ==> t in e.keys;
      Some(e)
  }

  /** The merged literal is the parameters followed by five writes. */
  lemma MergedWrites(md: Record, defaults: Record, params: Record, ctx: Context, pu: Value, now: int)
    requires Wf(md)
    ensures Merged(md, defaults, params, EventEnv(ctx, pu), now).vals
      == TopParams(defaults, params).vals["metadata" := if |md.keys| > 0 then Obj(md) else Undefined]
           ["url" := Str(ctx.href)]["referrer" := Str(ctx.referrer)]["page_uuid" := pu]["ts" := Num(now)]
  {
    var top := TopParams(defaults, params);
    var withMeta := Put(top, "metadata", if |md.keys| > 0 then Obj(md) else Undefined);
    EnvSpread(withMeta, ctx, pu);
  }

  /** The merged literal: the environment and the clock win over the
      parameters, the call's parameters win over the defaults, and the
      metadata entry is dropped to `undefined` when empty. */
  lemma MergedFields(md: Record, defaults: Record, params: Record, ctx: Context, pu: Value, now: int, k: string)
    requires Wf(md)
    ensures var m := Merged(md, defaults, params, EventEnv(ctx, pu), now);
      && (k in m.vals <==> k in Reserved || k in defaults.keys || k in params.keys)
      && (k == "ts" ==> m.vals[k] == Num(now))
      && (k == "url" ==> m.vals[k] == Str(ctx.href))
      && (k == "referrer" ==> m.vals[k] == Str(ctx.referrer))
      && (k == "page_uuid" ==> m.vals[k] == pu)
      && (k == "metadata" ==> m.vals[k] == if |md.keys| > 0 then Obj(md) else Undefined)
      && (k !in Reserved && k in params.keys ==> m.vals[k] == Get(params, k))
      && (k !in Reserved && k !in params.keys && k in defaults.keys ==> m.vals[k] == Get(defaults, k))
  {
    MergedWrites(md, defaults, params, ctx, pu, now);
    if k in Reserved {
      MergedReserved(md, defaults, params, ctx, pu, now);
    } else {
      MergedParams(md, defaults, params, ctx, pu, now, k);
    }
  }

  /** The five fields written after the parameters hold what was written. */
  lemma MergedReserved(md: Record, defaults: Record, params: Record, ctx: Context, pu: Value, now: int)
    requires Wf(md)
    ensures var m := Merged(md, defaults, params, EventEnv(ctx, pu), now);
      && "ts" in m.vals && m.vals["ts"] == Num(now)
      && "url" in m.vals && m.vals["url"] == Str(ctx.href)
      && "referrer" in m.vals && m.vals["referrer"] == Str(ctx.referrer)
      && "page_uuid" in m.vals && m.vals["page_uuid"] == pu
      && "metadata" in m.vals && m.vals["metadata"] == if |md.keys| > 0 then Obj(md) else Undefined
  {
    MergedWrites(md, defaults, params, ctx, pu, now);
    WritesRead(TopParams(defaults, params).vals, if |md.keys| > 0 then Obj(md) else Undefined,
               Str(ctx.href), Str(ctx.referrer), pu, Num(now));
  }

  /** Reading back the five writes that follow the parameters. */
  lemma WritesRead(top: map<string, Value>, meta: Value, url: Value, referrer: Value, pu: Value, ts: Value)
    ensures var w := top["metadata" := meta]["url" := url]["referrer" := referrer]["page_uuid" := pu]["ts" := ts];
      && "metadata" in w && w["metadata"] == meta
      && "url" in w && w["url"] == url
      && "referrer" in w && w["referrer"] == referrer
      && "page_uuid" in w && w["page_uuid"] == pu
      && "ts" in w && w["ts"] == ts
  {
  }

  /** Any other key comes from the parameters, the call's winning. */
  lemma MergedParams(md: Record, defaults: Record, params: Record, ctx: Context, pu: Value, now: int, k: string)
    requires Wf(md) && k !in Reserved
    ensures var m := Merged(md, defaults, params, EventEnv(ctx, pu), now);
      && (k in m.vals <==> k in defaults.keys || k in params.keys)
      && (k in params.keys ==> m.vals[k] == Get(params, k))
      && (k !in params.keys && k in defaults.keys ==> m.vals[k] == Get(defaults, k))
  {
    MergedWrites(md, defaults, params, ctx, pu, now);
    assert k != "ts" && k != "url" && k != "referrer" && k != "page_uuid" && k != "metadata";
  }

  /** Spreading the environment writes its three fields over the record. */
  lemma EnvSpread(r: Record, ctx: Context, pu: Value)
    requires Wf(r)
    ensures Spread(r, EventEnv(ctx, pu)).vals
            == r.vals["url" := Str(ctx.href)]["referrer" := Str(ctx.referrer)]["page_uuid" := pu]
  {
    var env := EventEnv(ctx, pu);
    SpreadWrites(r, env);
    var ks := env.keys;
    assert ks[1..] == ["referrer", "page_uuid"] && ks[1..][1..] == ["page_uuid"] && ks[1..][1..][1..] == [];
  }

  /** Keys that stay apart once snake-cased. */
  ghost predicate SnakeDistinct(ks: set<string>)
  {
    forall a, b :: a in ks && b in ks && SnakeCase(a) == SnakeCase(b) ==> a == b
  }

  /** No key of `ks` other than `k` snake-cases to the name `k` does. */
  ghost predicate SnakeAlone(ks: set<string>, k: string)
  {
    forall x :: x in ks && x != k ==> SnakeCase(x) != SnakeCase(k)
  }

  /** No key after position `j` converts to the name the key at `j` does. */
  ghost predicate LastOfItsName(ks: seq<string>, j: nat)
  {
    j < |ks| && forall i :: j < i < |ks| ==> SnakeCase(ks[i]) != SnakeCase(ks[j])
  }

  /** Snake-casing and nil-dropping a record: the key at `j`, when no later
      key converts to the same name, reappears converted with its value,
      unless that value is nil. */
  lemma NormalizeAt(m: Record, j: nat)
    requires Wf(m) && LastOfItsName(m.keys, j)
    ensures var e := OmitNil(SnakeCaseKeys(m));
      var s := SnakeCase(m.keys[j]);
      && (s in e.vals <==> !IsNil(m.vals[m.keys[j]]))
      && (s in e.vals ==> e.vals[s] == m.vals[m.keys[j]])
  {
    SnakeCaseKeysLastWins(m, j);
    var s := SnakeCaseKeys(m);
    assert SnakeCase(m.keys[j]) in s.keys;
  }

  /** The keys an event record can be built from. */
  function SourceKeys(defaults: Record, params: Record): set<string>
  {
    (set x | x in defaults.keys) + (set x | x in params.keys) + Reserved
  }

  /** The fixed keys contain no upper-case letter, so snake-casing keeps them. */
  lemma PlainKeySnakeFixed(k: string)
    requires k in {"kind", "metadata", "url", "referrer", "page_uuid", "ts"}
    ensures SnakeCase(k) == k
  {
    if k == "kind" {
      NoUpperIsFixed("kind");
    } else if k == "metadata" {
      NoUpperIsFixed("metadata");
    } else if k == "url" {
      NoUpperIsFixed("url");
    } else if k == "referrer" {
      NoUpperIsFixed("referrer");
    } else if k == "page_uuid" {
      NoUpperIsFixed("page_uuid");
    } else {
      NoUpperIsFixed("ts");
    }
  }

  /** The literal `addToQueue` builds for one call, before snake-casing. */
  function MergedLiteral(defaults: Record, params: Record, ctx: Context, pageUuid: Option<string>, now: int): (m: Record)
    requires Get(defaults, "metadata") != Null
    ensures Wf(m)
  {
    Merged(EventMetadata(defaults, params).value, defaults, params, EventEnv(ctx, PageUuidValue(pageUuid)), now)
  }

  lemma NewEventUnfold(defaults: Record, params: Record, ctx: Context, pageUuid: Option<string>, now: int)
    requires Get(defaults, "metadata") != Null
    ensures Wf(MergedLiteral(defaults, params, ctx, pageUuid, now))
    ensures NewEvent(defaults, params, ctx, pageUuid, now)
      == Some(OmitNil(SnakeCaseKeys(MergedLiteral(defaults, params, ctx, pageUuid, now))))
  {
  }

  /** Whatever the keys: a field of the queued record holds the value of
      the last key of the merged literal that snake-cases to its name, and
      is absent when that value is nil. This is the rule when keys collide,
      as `URL` and `url`, or `Kind` and `kind`, do. */
  lemma EventLastWins(defaults: Record, params: Record, ctx: Context, pageUuid: Option<string>, now: int, j: nat)
    requires Get(defaults, "metadata") != Null
    requires LastOfItsName(MergedLiteral(defaults, params, ctx, pageUuid, now).keys, j)
    ensures var m := MergedLiteral(defaults, params, ctx, pageUuid, now);
      var e := NewEvent(defaults, params, ctx, pageUuid, now).value;
      var s := SnakeCase(m.keys[j]);
      && (s in e.vals <==> !IsNil(m.vals[m.keys[j]]))
      && (s in e.vals ==> e.vals[s] == m.vals[m.keys[j]])
  {
    NewEventUnfold(defaults, params, ctx, pageUuid, now);
    NormalizeAt(MergedLiteral(defaults, params, ctx, pageUuid, now), j);
  }

  /** Every key of the merged literal is a source key. */
  lemma MergedKeys(md: Record, defaults: Record, params: Record, ctx: Context, pu: Value, now: int)
    requires Wf(md)
    ensures var m := Merged(md, defaults, params, EventEnv(ctx, pu), now);
      forall x :: x in m.keys ==> x in SourceKeys(defaults, params)
  {
    var m := Merged(md, defaults, params, EventEnv(ctx, pu), now);
    forall x | x in m.keys ensures x in SourceKeys(defaults, params) {
      MergedFields(md, defaults, params, ctx, pu, now, x);
    }
  }

  /** A source key no other source key collides with reaches the queued
      record snake-cased, with its merged value, unless nil. */
  lemma EventAt(defaults: Record, params: Record, ctx: Context, pageUuid: Option<string>, now: int, k: string)
    requires Get(defaults, "metadata") != Null
    requires k in SourceKeys(defaults, params) && SnakeAlone(SourceKeys(defaults, params), k)
    ensures var m := MergedLiteral(defaults, params, ctx, pageUuid, now);
      var e := NewEvent(defaults, params, ctx, pageUuid, now).value;
      && k in m.vals
      && (SnakeCase(k) in e.vals <==> !IsNil(m.vals[k]))
      && (SnakeCase(k) in e.vals ==> e.vals[SnakeCase(k)] == m.vals[k])
  {
    var md := EventMetadata(defaults, params).value;
    var m := MergedLiteral(defaults, params, ctx, pageUuid, now);
    NewEventUnfold(defaults, params, ctx, pageUuid, now);
    MergedKeys(md, defaults, params, ctx, PageUuidValue(pageUuid), now);
    assert k in m.keys by {
      SourceKeysMember(defaults, params, k);
      MergedFields(md, defaults, params, ctx, PageUuidValue(pageUuid), now, k);
    }
    var j :| 0 <= j < |m.keys| && m.keys[j] == k;
    AloneIsLast(m, SourceKeys(defaults, params), j);
    EventLastWins(defaults, params, ctx, pageUuid, now, j);
  }

  /** A key no other key of `ks` collides with has no colliding key after
      it in a record whose keys are all in `ks`. */
  lemma AloneIsLast(m: Record, ks: set<string>, j: nat)
    requires Wf(m) && j < |m.keys|
    requires forall x :: x in m.keys ==> x in ks
    requires SnakeAlone(ks, m.keys[j])
    ensures LastOfItsName(m.keys, j)
  {
    forall i | j < i < |m.keys| ensures SnakeCase(m.keys[i]) != SnakeCase(m.keys[j]) {
      assert m.keys[i] != m.keys[j];
      assert m.keys[i] in ks;
    }
  }

  lemma SourceKeysMember(defaults: Record, params: Record, k: string)
    ensures k in SourceKeys(defaults, params) <==> k in Reserved || k in defaults.keys || k in params.keys
  {
  }

  /** A top-level field of the queued record: the call's value if the call
      has the key, else the default's, snake-cased, and absent when nil. */
  lemma {:induction false} EventField(defaults: Record, params: Record, ctx: Context, pageUuid: Option<string>, now: int, k: string)
    requires Get(defaults, "metadata") != Null
    requires k !in Reserved && (k in defaults.keys || k in params.keys)
    requires SnakeAlone(SourceKeys(defaults, params), k)
    ensures var e := NewEvent(defaults, params, ctx, pageUuid, now).value;
      var v := if k in params.keys then Get(params, k) else Get(defaults, k);
      && (SnakeCase(k) in e.vals <==> !IsNil(v))
      && (SnakeCase(k) in e.vals ==> e.vals[SnakeCase(k)] == v)
  {
    var md := EventMetadata(defaults, params).value;
    MergedFields(md, defaults, params, ctx, PageUuidValue(pageUuid), now, k);
    SourceKeysMember(defaults, params, k);
    EventAt(defaults, params, ctx, pageUuid, now, k);
  }

  lemma MergedIsSnakeDistinct(md: Record, defaults: Record, params: Record, ctx: Context, pu: Value, now: int)
    requires Wf(md)
    requires SnakeDistinct(SourceKeys(defaults, params))
    ensures var m := Merged(md, defaults, params, EventEnv(ctx, pu), now);
      Wf(m) && SnakeDistinct(set x | x in m.keys)
  {
    MergedKeys(md, defaults, params, ctx, pu, now);
  }

  /** `track("s")` queues `kind: "s"`; a parameter object keeps its own
      non-nil `kind` and otherwise gets `"event"`. */
  lemma EventKind(defaults: Record, kp: KindOrParams, ctx: Context, pageUuid: Option<string>, now: int)
    requires Get(defaults, "metadata") != Null
    requires SnakeAlone(SourceKeys(defaults, TrackParams(kp)), "kind")
    ensures var e := NewEvent(defaults, TrackParams(kp), ctx, pageUuid, now).value;
      && "kind" in e.vals
      && (kp.KindName? ==> e.vals["kind"] == Str(kp.kind))
      && (kp.Params? && IsNil(Get(kp.params, "kind")) ==> e.vals["kind"] == Str("event"))
      && (kp.Params? && !IsNil(Get(kp.params, "kind")) ==> e.vals["kind"] == Get(kp.params, "kind"))
  {
    EventKindOf(defaults, TrackParams(kp), ctx, pageUuid, now);
  }

  /** A parameter object with a non-nil `kind` queues that kind. */
  lemma EventKindOf(defaults: Record, p: Record, ctx: Context, pageUuid: Option<string>, now: int)
    requires Get(defaults, "metadata") != Null
    requires Wf(p) && "kind" in p.vals && !IsNil(p.vals["kind"])
    requires SnakeAlone(SourceKeys(defaults, p), "kind")
    ensures var e := NewEvent(defaults, p, ctx, pageUuid, now).value;
      "kind" in e.vals && e.vals["kind"] == p.vals["kind"]
  {
    assert "kind" in p.keys;
    KindNotReserved();
    PlainKeySnakeFixed("kind");
    EventField(defaults, p, ctx, pageUuid, now, "kind");
  }

  lemma KindNotReserved()
    ensures "kind" !in Reserved
  {
  }

  /** The queued `metadata` is the default metadata overridden by the
      call's, and it is left out when that merge is empty. */
  lemma {:induction false} EventMetadataField(defaults: Record, params: Record, ctx: Context, pageUuid: Option<string>, now: int)
    requires Get(defaults, "metadata") != Null
    requires SnakeAlone(SourceKeys(defaults, params), "metadata")
    ensures var e := NewEvent(defaults, params, ctx, pageUuid, now).value;
      var md := EventMetadata(defaults, params).value;
      && ("metadata" in e.vals <==> |md.keys| > 0)
      && ("metadata" in e.vals ==> e.vals["metadata"] == Obj(md))
  {
    var md := EventMetadata(defaults, params).value;
    MergedFields(md, defaults, params, ctx, PageUuidValue(pageUuid), now, "metadata");
    EventAt(defaults, params, ctx, pageUuid, now, "metadata");
    PlainKeySnakeFixed("metadata");
  }

  /** The page environment and the clock override any same-named
      parameter; `page_uuid` is left out while the page token is unknown. */
  lemma EventEnvironment(defaults: Record, params: Record, ctx: Context, pageUuid: Option<string>, now: int)
    requires Get(defaults, "metadata") != Null
    requires SnakeAlone(SourceKeys(defaults, params), "url") && SnakeAlone(SourceKeys(defaults, params), "referrer")
    requires SnakeAlone(SourceKeys(defaults, params), "page_uuid") && SnakeAlone(SourceKeys(defaults, params), "ts")
    ensures var e := NewEvent(defaults, params, ctx, pageUuid, now).value;
      && "url" in e.vals && e.vals["url"] == Str(ctx.href)
      && "referrer" in e.vals && e.vals["referrer"] == Str(ctx.referrer)
      && "ts" in e.vals && e.vals["ts"] == Num(now)
      && ("page_uuid" in e.vals <==> pageUuid.Some?)
      && (pageUuid.Some? ==> e.vals["page_uuid"] == Str(pageUuid.value))
  {
    EventEnvAt(defaults, params, ctx, pageUuid, now, "url");
    EventEnvAt(defaults, params, ctx, pageUuid, now, "referrer");
    EventEnvAt(defaults, params, ctx, pageUuid, now, "ts");
    EventEnvAt(defaults, params, ctx, pageUuid, now, "page_uuid");
  }

  /** One environment field of the queued record. */
  lemma {:induction false} EventEnvAt(defaults: Record, params: Record, ctx: Context, pageUuid: Option<string>, now: int, k: string)
    requires Get(defaults, "metadata") != Null
    requires k in {"url", "referrer", "page_uuid", "ts"}
    requires SnakeAlone(SourceKeys(defaults, params), k)
    ensures var e := NewEvent(defaults, params, ctx, pageUuid, now).value;
      var v := if k == "url" then Str(ctx.href) else if k == "referrer" then Str(ctx.referrer)
               else if k == "ts" then Num(now) else PageUuidValue(pageUuid);
      && (k in e.vals <==> !IsNil(v))
      && (k in e.vals ==> e.vals[k] == v)
  {
    var md := EventMetadata(defaults, params).value;
    MergedFields(md, defaults, params, ctx, PageUuidValue(pageUuid), now, k);
    EventAt(defaults, params, ctx, pageUuid, now, k);
    PlainKeySnakeFixed(k);
  }
}

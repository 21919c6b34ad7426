/** The event record the two earlier engines push: `track(kind, payload)`
    of src/wt.ts and `handleEvent(kind, payload)` of src/index.js. Nine
    known parameters are lifted, under snake-case names, to top-level
    fields; every other parameter goes to `metadata`; the environment and
    the timestamp follow; then nil fields are dropped. The two engines
    differ only in how `metadata` merges the remaining parameters with
    the defaults, and in where `page_uuid` comes from. */
module LegacyEvent {
  import opened Js
  import opened Utils
  import opened Host
  import opened Assign

  /** The parameters destructured out of the payload, each with the field
      it becomes. */
  const Lifted: seq<(string, string)> := [
    ("category", "category"), ("action", "action"), ("label", "label"),
    ("value", "value"), ("pageName", "page_name"), ("container", "container"),
    ("position", "position"), ("objectType", "object_type"), ("objectName", "object_name")]

  predicate IsLifted(k: string)
  {
    k in {"category", "action", "label", "value", "pageName", "container", "position", "objectType", "objectName"}
  }

  /** The fields of the pushed literal, in order. */
  const Fields: seq<string> := [
    "kind", "category", "action", "label", "value", "page_name", "container",
    "position", "object_type", "object_name", "metadata", "url", "referrer",
    "page_uuid", "ts"]

  /** `...args`: the payload's own keys other than the nine, in order. */
  function RestArgs(p: Record): (rest: Record)
    ensures Wf(rest)
    ensures forall k :: k in rest.vals <==> k in p.keys && !IsLifted(k)
    ensures forall k :: k in rest.vals ==> rest.vals[k] == Get(p, k)
  {
    OmitBy(p, (v, k) => IsLifted(k))
  }

  /** The values of the object literal before `omitBy(..., isNil)`, one
      per field, in the order of `Fields`. */
  function DraftValues(kind: Value, p: Record, metadata: Record, ctx: Context, pageUuid: Value, now: int): (vs: seq<Value>)
    ensures |vs| == |Fields|
  {
    [kind, Get(p, "category"), Get(p, "action"), Get(p, "label"), Get(p, "value"),
     Get(p, "pageName"), Get(p, "container"), Get(p, "position"), Get(p, "objectType"),
     Get(p, "objectName"), Obj(metadata), Str(ctx.href), Str(ctx.referrer), pageUuid, Num(now)]
  }

  /** The object literal before `omitBy(..., isNil)`. */
  function Draft(kind: Value, p: Record, metadata: Record, ctx: Context, pageUuid: Value, now: int): (d: Record)
    ensures Wf(d)
  {
    FieldsDistinct();
    Zip(Fields, DraftValues(kind, p, metadata, ctx, pageUuid, now))
  }

  lemma FieldsDistinct()
    ensures DistinctKeys(Fields)
  {
  }

  /** The pushed record. */
  function Event(kind: Value, p: Record, metadata: Record, ctx: Context, pageUuid: Value, now: int): (e: Record)
    ensures Wf(e)
  {
    OmitNil(Draft(kind, p, metadata, ctx, pageUuid, now))
  }

  /** Field `j` of the event is present exactly when its value in the
      literal is not nil, and then holds that value. */
  lemma EventAt(kind: Value, p: Record, metadata: Record, ctx: Context, pageUuid: Value, now: int, j: nat)
    requires j < |Fields|
    ensures var e := Event(kind, p, metadata, ctx, pageUuid, now);
            var v := DraftValues(kind, p, metadata, ctx, pageUuid, now)[j];
            && (Fields[j] in e.vals <==> !IsNil(v))
            && (Fields[j] in e.vals ==> e.vals[Fields[j]] == v)
  {
    FieldsDistinct();
    ZipAt(Fields, DraftValues(kind, p, metadata, ctx, pageUuid, now), j);
  }

  /** The environment the current engine spreads, `getEventEnvironmentArgs()`,
      is what the earlier engines write inline: the same three fields, in
      the same order, with the same values. */
  lemma EnvironmentAsEarlierEngines(kind: Value, p: Record, metadata: Record, ctx: Context, pageUuid: Value, now: int)
    ensures var env := EventEnv(ctx, pageUuid);
      var d := Draft(kind, p, metadata, ctx, pageUuid, now);
      && env.keys == Fields[11..14]
      && "url" in d.vals && d.vals["url"] == env.vals["url"]
      && "referrer" in d.vals && d.vals["referrer"] == env.vals["referrer"]
      && "page_uuid" in d.vals && d.vals["page_uuid"] == env.vals["page_uuid"]
  {
    EnvFieldsInOrder(ctx, pageUuid);
    DraftAt(kind, p, metadata, ctx, pageUuid, now, 11);
    DraftAt(kind, p, metadata, ctx, pageUuid, now, 12);
    DraftAt(kind, p, metadata, ctx, pageUuid, now, 13);
  }

  lemma EnvFieldsInOrder(ctx: Context, pageUuid: Value)
    ensures EventEnv(ctx, pageUuid).keys == Fields[11..14]
  {
  }

  /** Field `j` of the literal holds value `j`. */
  lemma DraftAt(kind: Value, p: Record, metadata: Record, ctx: Context, pageUuid: Value, now: int, j: nat)
    requires j < |Fields|
    ensures var d := Draft(kind, p, metadata, ctx, pageUuid, now);
      Fields[j] in d.vals && d.vals[Fields[j]] == DraftValues(kind, p, metadata, ctx, pageUuid, now)[j]
  {
    FieldsDistinct();
    ZipAt(Fields, DraftValues(kind, p, metadata, ctx, pageUuid, now), j);
  }

  /** Lifted parameter `i` is field `i + 1` of the literal, under its
      snake-case name. */
  lemma LiftedField(kind: Value, p: Record, metadata: Record, ctx: Context, pageUuid: Value, now: int, i: nat)
    requires i < |Lifted|
    ensures Lifted[i].1 == Fields[i + 1]
    ensures DraftValues(kind, p, metadata, ctx, pageUuid, now)[i + 1] == Get(p, Lifted[i].0)
  {
    if i == 0 { } else if i == 1 { } else if i == 2 { } else if i == 3 { } else if i == 4 { }
    else if i == 5 { } else if i == 6 { } else if i == 7 { } else { }
  }

  /** Each lifted parameter becomes its field when it is not nil, and is
      absent otherwise. */
  lemma {:induction false} EventLifted(kind: Value, p: Record, metadata: Record, ctx: Context, pageUuid: Value, now: int, i: nat)
    requires i < |Lifted|
    ensures var e := Event(kind, p, metadata, ctx, pageUuid, now);
            && (Lifted[i].1 in e.vals <==> !IsNil(Get(p, Lifted[i].0)))
            && (Lifted[i].1 in e.vals ==> e.vals[Lifted[i].1] == Get(p, Lifted[i].0))
  {
    LiftedField(kind, p, metadata, ctx, pageUuid, now, i);
    EventAt(kind, p, metadata, ctx, pageUuid, now, i + 1);
  }

  /** `kind` is present exactly when it is not nil. */
  lemma EventKind(kind: Value, p: Record, metadata: Record, ctx: Context, pageUuid: Value, now: int)
    ensures var e := Event(kind, p, metadata, ctx, pageUuid, now);
            ("kind" in e.vals <==> !IsNil(kind)) && ("kind" in e.vals ==> e.vals["kind"] == kind)
  {
    var vs := DraftValues(kind, p, metadata, ctx, pageUuid, now);
    assert vs[0] == kind && Fields[0] == "kind";
    EventAt(kind, p, metadata, ctx, pageUuid, now, 0);
  }

  /** `metadata` is always present, even when empty. */
  lemma EventMetadata(kind: Value, p: Record, metadata: Record, ctx: Context, pageUuid: Value, now: int)
    ensures var e := Event(kind, p, metadata, ctx, pageUuid, now);
            "metadata" in e.vals && e.vals["metadata"] == Obj(metadata)
  {
    var vs := DraftValues(kind, p, metadata, ctx, pageUuid, now);
    assert vs[10] == Obj(metadata) && !IsNil(vs[10]) && Fields[10] == "metadata";
    EventAt(kind, p, metadata, ctx, pageUuid, now, 10);
  }

  /** `url` is the page address and is always present. */
  lemma EventUrl(kind: Value, p: Record, metadata: Record, ctx: Context, pageUuid: Value, now: int)
    ensures var e := Event(kind, p, metadata, ctx, pageUuid, now);
            "url" in e.vals && e.vals["url"] == Str(ctx.href)
  {
    var vs := DraftValues(kind, p, metadata, ctx, pageUuid, now);
    assert vs[11] == Str(ctx.href) && !IsNil(vs[11]) && Fields[11] == "url";
    EventAt(kind, p, metadata, ctx, pageUuid, now, 11);
  }

  /** `referrer` is the page referrer and is always present. */
  lemma EventReferrer(kind: Value, p: Record, metadata: Record, ctx: Context, pageUuid: Value, now: int)
    ensures var e := Event(kind, p, metadata, ctx, pageUuid, now);
            "referrer" in e.vals && e.vals["referrer"] == Str(ctx.referrer)
  {
    var vs := DraftValues(kind, p, metadata, ctx, pageUuid, now);
    assert vs[12] == Str(ctx.referrer) && !IsNil(vs[12]) && Fields[12] == "referrer";
    EventAt(kind, p, metadata, ctx, pageUuid, now, 12);
  }

  /** `page_uuid` is present exactly when a page token is known. */
  lemma EventPageUuid(kind: Value, p: Record, metadata: Record, ctx: Context, pageUuid: Value, now: int)
    ensures var e := Event(kind, p, metadata, ctx, pageUuid, now);
            ("page_uuid" in e.vals <==> !IsNil(pageUuid)) && ("page_uuid" in e.vals ==> e.vals["page_uuid"] == pageUuid)
  {
    var vs := DraftValues(kind, p, metadata, ctx, pageUuid, now);
    assert vs[13] == pageUuid && Fields[13] == "page_uuid";
    EventAt(kind, p, metadata, ctx, pageUuid, now, 13);
  }

  /** `ts` is the time of the call and is always present. */
  lemma EventTs(kind: Value, p: Record, metadata: Record, ctx: Context, pageUuid: Value, now: int)
    ensures var e := Event(kind, p, metadata, ctx, pageUuid, now);
            "ts" in e.vals && e.vals["ts"] == Num(now)
  {
    var vs := DraftValues(kind, p, metadata, ctx, pageUuid, now);
    assert vs[14] == Num(now) && !IsNil(vs[14]) && Fields[14] == "ts";
    EventAt(kind, p, metadata, ctx, pageUuid, now, 14);
  }

  /** No other field: the remaining parameters and the defaults never
      become top-level fields. */
  lemma EventKeys(kind: Value, p: Record, metadata: Record, ctx: Context, pageUuid: Value, now: int)
    ensures forall k :: k in Event(kind, p, metadata, ctx, pageUuid, now).vals ==> k in Fields
  {
  }

  /** src/wt.ts: `metadata: { ...this.paramDefaults, ...args }`. */
  function WtMetadata(defaults: Record, p: Record): (md: Record)
    requires Wf(defaults)
    ensures Wf(md)
    ensures forall k :: k in md.vals <==> k in defaults.vals || (k in p.keys && !IsLifted(k))
    ensures forall k :: k in p.keys && !IsLifted(k) ==> md.vals[k] == Get(p, k)
    ensures forall k :: k in defaults.vals && !(k in p.keys && !IsLifted(k)) ==> md.vals[k] == defaults.vals[k]
  {
    var rest := RestArgs(p);
    assert forall k :: k in rest.keys <==> k in p.keys && !IsLifted(k);
    Spread(defaults, rest)
  }

  /** src/index.js: `metadata: assign({}, args, this.paramDefaults)`. */
  function IndexMetadata(defaults: Record, p: Record): (md: Record)
    requires Wf(defaults)
    ensures Wf(md)
  {
    AssignAll(Empty, [RestArgs(p), defaults])
  }

  /** In src/index.js the defaults override the call: a key of the defaults
      keeps the default's value, and any other remaining parameter keeps
      the call's. */
  lemma {:induction false} IndexMetadataDefaultsWin(defaults: Record, p: Record, k: string)
    requires Wf(defaults)
    ensures k in IndexMetadata(defaults, p).vals <==> k in defaults.vals || (k in p.keys && !IsLifted(k))
    ensures k in defaults.vals ==> IndexMetadata(defaults, p).vals[k] == defaults.vals[k]
    ensures k !in defaults.vals && k in p.keys && !IsLifted(k) ==> IndexMetadata(defaults, p).vals[k] == Get(p, k)
  {
    var rest := RestArgs(p);
    var srcs := [rest, defaults];
    AssignAllKeys(Empty, srcs, k);
    if k in defaults.vals {
      AssignAllLastWins(Empty, srcs, k, 1);
    } else if k in rest.vals {
      AssignAllLastWins(Empty, srcs, k, 0);
    }
    if exists i :: 0 <= i < |srcs| && k in srcs[i].keys {
      var i :| 0 <= i < |srcs| && k in srcs[i].keys;
      assert i == 0 || i == 1;
    }
    assert k in defaults.keys ==> srcs[1] == defaults;
  }

  /** The same payload and defaults sharing a key `color`: src/wt.ts keeps
      the call's value, src/index.js the default's. */
  lemma PrecedenceReversed()
    ensures var p := Literal([("color", Str("red"))]);
            var defaults := Literal([("color", Str("blue"))]);
            && WtMetadata(defaults, p).vals["color"] == Str("red")
            && IndexMetadata(defaults, p).vals["color"] == Str("blue")
  {
    var p := Literal([("color", Str("red"))]);
    var defaults := Literal([("color", Str("blue"))]);
    LiteralValue([("color", Str("red"))], 0);
    LiteralValue([("color", Str("blue"))], 0);
    assert p.keys == ["color"];
    IndexMetadataDefaultsWin(defaults, p, "color");
  }

  /** The record src/wt.ts pushes: `page_uuid` is the cached page token. */
  function WtEvent(kind: string, p: Record, defaults: Record, ctx: Context, pageUuid: Option<string>, now: int): Record
    requires Wf(defaults)
  {
    Event(Str(kind), p, WtMetadata(defaults, p), ctx, PageUuidValue(pageUuid), now)
  }

  /** The record src/index.js pushes: `page_uuid` is the token drawn for
      this event. */
  function IndexEvent(kind: Value, p: Record, defaults: Record, ctx: Context, token: string, now: int): Record
    requires Wf(defaults)
  {
    Event(kind, p, IndexMetadata(defaults, p), ctx, Str(token), now)
  }
}

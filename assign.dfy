/** The in-place `assign(target, ...sources)` of src/utils.js, which the
    oldest engine uses for its defaults, its configuration, event metadata
    and the request payload. */
module Assign {
  import opened Js

  /** A JavaScript object reached by reference: its own properties change
      in place. */
  class JsObject {
    var props: Record

    constructor (props: Record)
      ensures this.props == props
    {
      this.props := props;
    }
  }

  /** What `assign` leaves in the target: each source spread over the
      properties so far, left to right. */
  function AssignAll(acc: Record, srcs: seq<Record>): (r: Record)
    requires Wf(acc)
    ensures Wf(r)
    ensures acc.keys <= r.keys
    decreases |srcs|
  {
    if srcs == [] then acc else AssignAll(Spread(acc, srcs[0]), srcs[1..])
  }

  /** A key no source has is untouched. */
  lemma {:induction false} AssignAllUntouched(acc: Record, srcs: seq<Record>, k: string)
    requires Wf(acc)
    requires forall i :: 0 <= i < |srcs| ==> k !in srcs[i].keys
    ensures k in AssignAll(acc, srcs).vals <==> k in acc.vals
    ensures k in acc.vals ==> AssignAll(acc, srcs).vals[k] == acc.vals[k]
    decreases |srcs|
  {
    if srcs != [] {
      AssignAllUntouched(Spread(acc, srcs[0]), srcs[1..], k);
    }
  }

  /** A key takes its value from the last source that has it. */
  lemma {:induction false} AssignAllLastWins(acc: Record, srcs: seq<Record>, k: string, j: nat)
    requires Wf(acc)
    requires j < |srcs| && k in srcs[j].keys
    requires forall i :: j < i < |srcs| ==> k !in srcs[i].keys
    ensures k in AssignAll(acc, srcs).vals
    ensures AssignAll(acc, srcs).vals[k] == Get(srcs[j], k)
    decreases |srcs|
  {
    var next := Spread(acc, srcs[0]);
    if j == 0 {
      AssignAllUntouched(next, srcs[1..], k);
    } else {
      AssignAllLastWins(next, srcs[1..], k, j - 1);
    }
  }

  /** The keys of the result are those of the target and of the sources. */
  lemma {:induction false} AssignAllKeys(acc: Record, srcs: seq<Record>, k: string)
    requires Wf(acc)
    ensures k in AssignAll(acc, srcs).vals <==>
            k in acc.vals || exists i :: 0 <= i < |srcs| && k in srcs[i].keys
    decreases |srcs|
  {
    if srcs != [] {
      AssignAllKeys(Spread(acc, srcs[0]), srcs[1..], k);
      if exists i :: 0 <= i < |srcs[1..]| && k in srcs[1..][i].keys {
        var i :| 0 <= i < |srcs[1..]| && k in srcs[1..][i].keys;
        assert k in srcs[i + 1].keys;
      }
      if exists i :: 0 <= i < |srcs| && k in srcs[i].keys {
        var i :| 0 <= i < |srcs| && k in srcs[i].keys;
        if i > 0 {
          assert k in srcs[1..][i - 1].keys;
        }
      }
    }
  }

  /** `assign(target, ...srcs)`: copies every own key of each source onto
      `target`, source by source and key by key, and returns `target`. */
  method Assign(target: JsObject, srcs: seq<Record>) returns (to: JsObject)
    requires Wf(target.props)
    modifies target
    ensures to == target
    ensures target.props == AssignAll(old(target.props), srcs)
  {
    to := target;
    var index := 0;
    while index < |srcs|
      invariant 0 <= index <= |srcs|
      invariant Wf(to.props)
      invariant AssignAll(to.props, srcs[index..]) == AssignAll(old(target.props), srcs)
    {
      var next := srcs[index];
      ghost var before := to.props;
      var ks := next.keys;
      var i := 0;
      while i < |ks|
        invariant 0 <= i <= |ks|
        invariant Wf(to.props)
        invariant PutAll(to.props, next, ks[i..]) == Spread(before, next)
      {
        assert ks[i..][1..] == ks[i + 1..];
        to.props := Put(to.props, ks[i], Get(next, ks[i]));
        i := i + 1;
      }
      assert srcs[index..][1..] == srcs[index + 1..];
      index := index + 1;
    }
  }
}

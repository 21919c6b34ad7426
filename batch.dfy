/** The batch cut all three engines make in `processEvents`:
    `events = eventQueue.slice(0, BATCH_MAX)` and
    `eventQueue = eventQueue.slice(BATCH_MAX)`. */
module Batch {
  import opened Js

  const BatchMax: nat := 100

  /** What a delivery carries: `{ events, ...getRequestEnvironmentArgs() }`. */
  datatype Payload = Payload(events: seq<Record>, env: Record)

  function Min(a: nat, b: nat): nat { if a <= b then a else b }

  /** The head of the queue that goes out. */
  function Head<T>(q: seq<T>): seq<T>
  {
    q[..Min(BatchMax, |q|)]
  }

  /** What stays queued. */
  function Rest<T>(q: seq<T>): seq<T>
  {
    q[Min(BatchMax, |q|)..]
  }

  /** The cut loses and reorders nothing: the batch followed by what stays
      is the old queue. The batch is as large as allowed, so it is empty
      only when the queue is. */
  lemma CutSplitsQueue<T>(q: seq<T>)
    ensures Head(q) + Rest(q) == q
    ensures |Head(q)| == Min(BatchMax, |q|) <= BatchMax
    ensures Head(q) == [] <==> q == []
    ensures |Rest(q)| == |q| - |Head(q)|
  {
    assert q[..Min(BatchMax, |q|)] + q[Min(BatchMax, |q|)..] == q;
  }

  /** The batches successive cuts deliver when nothing else is queued. */
  function Drain<T>(q: seq<T>): (bs: seq<seq<T>>)
    decreases |q|
  {
    if q == [] then [] else [Head(q)] + Drain(Rest(q))
  }

  function Flatten<T>(bs: seq<seq<T>>): seq<T>
  {
    if bs == [] then [] else bs[0] + Flatten(bs[1..])
  }

  /** Draining delivers every event once, in enqueue order, in batches of
      `BatchMax` except the last, which is not empty. */
  lemma {:induction false} DrainDeliversInOrder<T>(q: seq<T>)
    ensures Flatten(Drain(q)) == q
    ensures forall i :: 0 <= i < |Drain(q)| ==> 0 < |Drain(q)[i]| <= BatchMax
    ensures forall i :: 0 <= i < |Drain(q)| - 1 ==> |Drain(q)[i]| == BatchMax
    ensures |Drain(q)| == (|q| + BatchMax - 1) / BatchMax
    decreases |q|
  {
    if q != [] {
      CutSplitsQueue(q);
      DrainDeliversInOrder(Rest(q));
      var bs := Drain(q);
      assert bs[1..] == Drain(Rest(q));
      assert forall i :: 1 <= i < |bs| ==> bs[i] == Drain(Rest(q))[i - 1];
    }
  }
}

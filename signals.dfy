/** The lifecycle signals and the listener registry the engines keep in a
    Node `EventEmitter`: `on` appends a listener, `removeListener` takes
    out the most recently added matching one, and `emit` calls, in
    registration order, the listeners registered when it starts. */
module Signals {

  const SendStarted: string := "send:started"
  const SendCompleted: string := "send:completed"
  const QueueCompleted: string := "queue:completed"
  const QueueContinued: string := "queue:continued"

  /** A listener function, compared by identity as `removeListener` does:
      a host callback, the first-load latch of `resetFirstLoad`, or the
      wrapper `afterFirstLoad` registers around a host callback. Each
      registration of an engine's own closure gets a fresh serial number,
      because each `subscribe` call creates a new closure. */
  datatype Callback =
    | Host(id: nat)
    | FirstLoadLatch(serial: nat)
    | AfterFirstLoad(cb: nat, serial: nat)

  datatype Listener = Listener(event: string, cb: Callback)

  /** `emitter.on(event, cb)`. The ensures only spells out the definition
      for callers; `OnReachesLast` and `OnKeepsOtherSignals` state what it
      means for `emit`. */
  function On(ls: seq<Listener>, event: string, cb: Callback): (r: seq<Listener>)
    ensures r == ls + [Listener(event, cb)]
  {
    ls + [Listener(event, cb)]
  }

  /** `emitter.removeListener(event, cb)`: the last occurrence goes, if any. */
  function RemoveListener(ls: seq<Listener>, l: Listener): seq<Listener>
    decreases |ls|
  {
    if ls == [] then []
    else if ls[|ls| - 1] == l then ls[..|ls| - 1]
    else RemoveListener(ls[..|ls| - 1], l) + [ls[|ls| - 1]]
  }

  /** The callbacks `emit(event)` calls, in registration order. */
  function Recipients(ls: seq<Listener>, event: string): seq<Callback>
    decreases |ls|
  {
    if ls == [] then []
    else Recipients(ls[..|ls| - 1], event)
         + (if ls[|ls| - 1].event == event then [ls[|ls| - 1].cb] else [])
  }

  /** The unsubscribe function `subscribe` returns undoes exactly that
      subscription. */
  lemma UnsubscribeUndoesSubscribe(ls: seq<Listener>, event: string, cb: Callback)
    ensures RemoveListener(On(ls, event, cb), Listener(event, cb)) == ls
  {
    var r := On(ls, event, cb);
    assert r[..|r| - 1] == ls;
  }

  /** Removing a listener takes out one occurrence of it and nothing else. */
  lemma {:induction false} RemoveListenerTakesOne(ls: seq<Listener>, l: Listener)
    ensures l in ls ==> multiset(RemoveListener(ls, l)) == multiset(ls) - multiset{l}
    ensures l !in ls ==> RemoveListener(ls, l) == ls
    decreases |ls|
  {
    if ls != [] {
      var init, last := ls[..|ls| - 1], ls[|ls| - 1];
      assert ls == init + [last];
      if last != l {
        RemoveListenerTakesOne(init, l);
        assert l in ls <==> l in init;
      }
    }
  }

  /** Registering or removing a listener for one signal does not change
      who receives another signal. */
  lemma {:induction false} RemoveListenerKeepsOtherSignals(ls: seq<Listener>, l: Listener, event: string)
    requires event != l.event
    ensures Recipients(RemoveListener(ls, l), event) == Recipients(ls, event)
    decreases |ls|
  {
    if ls != [] {
      var init, last := ls[..|ls| - 1], ls[|ls| - 1];
      if last != l {
        RemoveListenerKeepsOtherSignals(init, l, event);
        var r := RemoveListener(init, l) + [last];
        assert r[..|r| - 1] == RemoveListener(init, l) && r[|r| - 1] == last;
      }
    }
  }

  /** After `on(event, cb)` the next `emit(event)` reaches `cb` once more,
      after every earlier recipient, and in the same order as before. */
  lemma OnReachesLast(ls: seq<Listener>, event: string, cb: Callback)
    ensures Recipients(On(ls, event, cb), event) == Recipients(ls, event) + [cb]
    ensures multiset(Recipients(On(ls, event, cb), event))[cb] == multiset(Recipients(ls, event))[cb] + 1
  {
    var r := On(ls, event, cb);
    assert r[..|r| - 1] == ls;
  }

  lemma OnKeepsOtherSignals(ls: seq<Listener>, event: string, cb: Callback, other: string)
    requires other != event
    ensures Recipients(On(ls, event, cb), other) == Recipients(ls, other)
  {
    var r := On(ls, event, cb);
    assert r[..|r| - 1] == ls;
  }

  /** `emit(event)` calls a callback as often as it is registered for the
      event. */
  lemma {:induction false} RecipientsCount(ls: seq<Listener>, event: string, cb: Callback)
    ensures multiset(Recipients(ls, event))[cb] == multiset(ls)[Listener(event, cb)]
    decreases |ls|
  {
    if ls != [] {
      var init, last := ls[..|ls| - 1], ls[|ls| - 1];
      assert ls == init + [last];
      RecipientsCount(init, event, cb);
    }
  }

  /** Removing one listener changes the count of that listener only. */
  lemma RemoveListenerCount(ls: seq<Listener>, l: Listener, other: Listener)
    ensures multiset(RemoveListener(ls, l))[other]
            == if other == l && l in ls then multiset(ls)[other] - 1 else multiset(ls)[other]
  {
    RemoveListenerTakesOne(ls, l);
  }
}

/** The first-load latch of the two earlier engines (src/wt.ts and
    src/index.js), kept beside their listener registry.

    `resetFirstLoad` clears `firstLoaded`, calls the stored unsubscribe
    functions of the latch and of the last `afterFirstLoad` wrapper, and
    subscribes a new latch to `send:completed`; the latch sets
    `firstLoaded`, calls the stored latch unsubscribe and forgets it.
    `afterFirstLoad(cb)` calls `cb` at once after the first load, and
    otherwise subscribes a wrapper that calls `cb`, then calls the stored
    wrapper unsubscribe (which is the one of the LAST wrapper registered,
    not necessarily its own) and forgets it. src/wt.ts calls the stored
    functions with `?.()`; src/index.js calls them unguarded, so calling a
    forgotten one throws a `TypeError` out of `emit`. */
module FirstLoad {
  import opened Js
  import opened Signals

  /** The engine fields this logic reads and writes: `firstLoaded`, the
      listener each stored unsubscribe function removes, and the
      `EventEmitter`'s listeners. */
  datatype Latch = Latch(
    firstLoaded: bool,
    unsubFirstLoad: Option<Listener>,
    unsubFirstLoadCb: Option<Listener>,
    listeners: seq<Listener>)

  /** One `emit` of the engine callbacks: the state after it, how many
      callbacks of the snapshot were called, and whether one threw. */
  datatype Delivery = Delivery(latch: Latch, reached: nat, threw: bool)

  /** What the host observes of an earlier engine: each signal with the
      callbacks it reached, and each `afterFirstLoad` callback called at
      once. */
  datatype Notice = Emitted(signal: string, reached: seq<Callback>) | CalledNow(cb: nat)

  function LatchListener(serial: nat): Listener
  {
    Listener(SendCompleted, FirstLoadLatch(serial))
  }

  function Wrapper(cb: nat, serial: nat): Listener
  {
    Listener(SendCompleted, AfterFirstLoad(cb, serial))
  }

  /** `resetFirstLoad()`, its new latch closure numbered `serial`. The stored
      wrapper unsubscribe is called but kept. */
  function Reset(st: Latch, serial: nat): (r: Latch)
    ensures !r.firstLoaded && r.unsubFirstLoad == Some(LatchListener(serial))
    ensures r.unsubFirstLoadCb == st.unsubFirstLoadCb
    ensures LatchListener(serial) in r.listeners
  {
    var ls := if st.unsubFirstLoadCb.Some? then RemoveListener(st.listeners, st.unsubFirstLoadCb.value)
              else st.listeners;
    var ls' := if st.unsubFirstLoad.Some? then RemoveListener(ls, st.unsubFirstLoad.value) else ls;
    Latch(false, Some(LatchListener(serial)), st.unsubFirstLoadCb, On(ls', SendCompleted, FirstLoadLatch(serial)))
  }

  /** The state `afterFirstLoad(cb)` leaves, its wrapper closure numbered
      `serial`: unchanged after the first load (the callback is called at
      once), otherwise the wrapper is subscribed and its unsubscribe stored. */
  function AfterFirstLoadOn(st: Latch, cb: nat, serial: nat): (r: Latch)
    ensures st.firstLoaded ==> r == st
    ensures !st.firstLoaded ==> r.unsubFirstLoadCb == Some(Wrapper(cb, serial))
                                && r.listeners == st.listeners + [Wrapper(cb, serial)]
  {
    if st.firstLoaded then st
    else st.(unsubFirstLoadCb := Some(Wrapper(cb, serial)),
             listeners := On(st.listeners, SendCompleted, AfterFirstLoad(cb, serial)))
  }

  /** The engine's own part of callback `c` when `emit` reaches it, and
      whether it threw. With `guarded` a forgotten unsubscribe is skipped. */
  function Step(st: Latch, c: Callback, guarded: bool): (Latch, bool)
  {
    match c
    case Host(_) => (st, false)
    case FirstLoadLatch(_) =>
      var loaded := st.(firstLoaded := true);
      if st.unsubFirstLoad.Some? then
        (loaded.(listeners := RemoveListener(st.listeners, st.unsubFirstLoad.value), unsubFirstLoad := None), false)
      else (loaded, !guarded)
    case AfterFirstLoad(_, _) =>
      if st.unsubFirstLoadCb.Some? then
        (st.(listeners := RemoveListener(st.listeners, st.unsubFirstLoadCb.value), unsubFirstLoadCb := None), false)
      else (st, !guarded)
  }

  /** `emit` over the snapshot `snap` of the listeners, in order, until a
      callback throws. Guarded code never throws, and without a throw every
      callback of the snapshot is reached. */
  function Deliver(st: Latch, snap: seq<Callback>, guarded: bool): (d: Delivery)
    ensures d.reached <= |snap|
    ensures !d.threw ==> d.reached == |snap|
    ensures guarded ==> !d.threw
    decreases |snap|
  {
    if snap == [] then Delivery(st, 0, false)
    else
      var (st', threw) := Step(st, snap[0], guarded);
      if threw then Delivery(st', 1, true)
      else
        var rest := Deliver(st', snap[1..], guarded);
        Delivery(rest.latch, rest.reached + 1, rest.threw)
  }

  /** Every latch in the registry is the one whose unsubscribe is stored,
      registered once for `send:completed`; the stored wrapper unsubscribe
      belongs to a wrapper; engine callbacks listen to `send:completed` only. */
  ghost predicate Tracked(st: Latch)
  {
    && (forall l :: l in st.listeners && l.cb.FirstLoadLatch? ==>
          st.unsubFirstLoad == Some(l) && multiset(st.listeners)[l] == 1)
    && (st.unsubFirstLoad.Some? ==>
          st.unsubFirstLoad.value.event == SendCompleted && st.unsubFirstLoad.value.cb.FirstLoadLatch?)
    && (st.unsubFirstLoadCb.Some? ==> st.unsubFirstLoadCb.value.cb.AfterFirstLoad?)
    && (forall l :: l in st.listeners && !l.cb.Host? ==> l.event == SendCompleted)
  }

  /** The engine invariant: tracked, and not loaded exactly while a latch
      is subscribed. */
  ghost predicate Armed(st: Latch)
  {
    && Tracked(st)
    && (st.firstLoaded <==> st.unsubFirstLoad.None?)
    && (st.unsubFirstLoad.Some? ==> st.unsubFirstLoad.value in st.listeners)
  }

  /** What an `emit` of an armed engine can meet in its snapshot. */
  ghost predicate Pending(st: Latch, snap: seq<Callback>)
  {
    && (forall c :: c in snap && c.FirstLoadLatch? ==>
          st.unsubFirstLoad == Some(Listener(SendCompleted, c)) && multiset(snap)[c] == 1)
    && (st.unsubFirstLoadCb.Some? ==> st.unsubFirstLoadCb.value.cb.AfterFirstLoad?)
  }

  /** `resetFirstLoad` arms the engine: one latch, not loaded. */
  lemma ResetArms(st: Latch, serial: nat)
    requires Tracked(st)
    ensures Armed(Reset(st, serial))
  {
    var ls := if st.unsubFirstLoadCb.Some? then RemoveListener(st.listeners, st.unsubFirstLoadCb.value)
              else st.listeners;
    var ls' := if st.unsubFirstLoad.Some? then RemoveListener(ls, st.unsubFirstLoad.value) else ls;
    var r := Reset(st, serial);
    assert r.listeners == ls' + [LatchListener(serial)];
    forall l | l in ls
      ensures l in st.listeners
      ensures l.cb.FirstLoadLatch? ==> multiset(ls)[l] == multiset(st.listeners)[l]
    {
      if st.unsubFirstLoadCb.Some? {
        RemoveListenerTakesOne(st.listeners, st.unsubFirstLoadCb.value);
        RemoveListenerCount(st.listeners, st.unsubFirstLoadCb.value, l);
        assert multiset(ls)[l] > 0;
      }
    }
    forall l | l in ls'
      ensures l in ls && !l.cb.FirstLoadLatch?
    {
      if st.unsubFirstLoad.Some? {
        RemoveListenerTakesOne(ls, st.unsubFirstLoad.value);
        RemoveListenerCount(ls, st.unsubFirstLoad.value, l);
        assert multiset(ls')[l] > 0;
      }
    }
    assert multiset(r.listeners)[LatchListener(serial)] == 1;
  }

  /** `afterFirstLoad` and host subscriptions keep the engine armed. */
  lemma AddKeepsArmed(st: Latch, l: Listener)
    requires Armed(st) && !l.cb.FirstLoadLatch? && (!l.cb.Host? ==> l.event == SendCompleted)
    ensures Armed(st.(listeners := st.listeners + [l]))
  {
    var ls := st.listeners + [l];
    forall x | x in ls && x.cb.FirstLoadLatch?
      ensures multiset(ls)[x] == multiset(st.listeners)[x]
    {
    }
  }

  lemma RegisterKeepsArmed(st: Latch, cb: nat, serial: nat)
    requires Armed(st)
    ensures Armed(AfterFirstLoadOn(st, cb, serial))
  {
    if !st.firstLoaded {
      AddKeepsArmed(st, Wrapper(cb, serial));
    }
  }

  /** Removing a listener other than a latch keeps the engine armed. */
  lemma RemoveKeepsArmed(st: Latch, l: Listener)
    requires Armed(st) && !l.cb.FirstLoadLatch?
    ensures Armed(st.(listeners := RemoveListener(st.listeners, l)))
  {
    var ls := RemoveListener(st.listeners, l);
    RemoveListenerTakesOne(st.listeners, l);
    forall x | x in ls
      ensures x in st.listeners
      ensures x.cb.FirstLoadLatch? ==> multiset(ls)[x] == multiset(st.listeners)[x]
    {
      RemoveListenerCount(st.listeners, l, x);
    }
    if st.unsubFirstLoad.Some? {
      RemoveListenerCount(st.listeners, l, st.unsubFirstLoad.value);
    }
  }

  /** The snapshot of an armed engine: its one latch at most once, and only
      for `send:completed`; other signals reach host callbacks only. */
  lemma {:induction false} ArmedSnapshot(st: Latch, event: string)
    requires Armed(st)
    ensures Pending(st, Recipients(st.listeners, event))
    ensures event != SendCompleted ==> forall c :: c in Recipients(st.listeners, event) ==> c.Host?
  {
    var snap := Recipients(st.listeners, event);
    forall c | c in snap
      ensures Listener(event, c) in st.listeners
      ensures multiset(snap)[c] == multiset(st.listeners)[Listener(event, c)]
    {
      RecipientsCount(st.listeners, event, c);
    }
  }

  /** Host callbacks leave the engine state alone. */
  lemma {:induction false} DeliverHostsOnly(st: Latch, snap: seq<Callback>, guarded: bool)
    requires forall c :: c in snap ==> c.Host?
    ensures Deliver(st, snap, guarded) == Delivery(st, |snap|, false)
    decreases |snap|
  {
    if snap != [] {
      assert snap[0] in snap;
      assert forall c :: c in snap[1..] ==> c in snap;
      DeliverHostsOnly(st, snap[1..], guarded);
    }
  }

  /** An `emit` keeps an armed engine armed. */
  lemma {:induction false} DeliverKeepsArmed(st: Latch, snap: seq<Callback>, guarded: bool)
    requires Armed(st) && Pending(st, snap)
    ensures Armed(Deliver(st, snap, guarded).latch)
    decreases |snap|
  {
    if snap != [] {
      var (st', threw) := Step(st, snap[0], guarded);
      if !threw {
        StepKeepsArmed(st, snap, guarded);
        DeliverKeepsArmed(st', snap[1..], guarded);
      }
    }
  }

  /** One callback of the snapshot keeps the engine armed, and what is
      left of the snapshot pending. */
  lemma StepKeepsArmed(st: Latch, snap: seq<Callback>, guarded: bool)
    requires Armed(st) && Pending(st, snap) && snap != []
    ensures var (st', threw) := Step(st, snap[0], guarded);
            !threw ==> Armed(st') && Pending(st', snap[1..])
  {
    var c0 := snap[0];
    var (st', threw) := Step(st, c0, guarded);
    assert snap == [c0] + snap[1..];
    assert forall c :: c in snap[1..] ==> c in snap;
    if !threw {
      match c0 {
        case Host(_) =>
        case FirstLoadLatch(_) =>
          LatchStepKeepsArmed(st, snap, guarded);
        case AfterFirstLoad(_, _) =>
          if st.unsubFirstLoadCb.Some? {
            RemoveKeepsArmed(st, st.unsubFirstLoadCb.value);
          }
      }
    }
  }

  /** Reaching the latch unsubscribes it; no other latch is subscribed or
      left in the snapshot. */
  lemma LatchStepKeepsArmed(st: Latch, snap: seq<Callback>, guarded: bool)
    requires Armed(st) && Pending(st, snap) && snap != [] && snap[0].FirstLoadLatch?
    ensures var (st', threw) := Step(st, snap[0], guarded);
            !threw ==> Armed(st') && Pending(st', snap[1..])
  {
    var c0 := snap[0];
    var (st', threw) := Step(st, c0, guarded);
    var l := Listener(SendCompleted, c0);
    assert st.unsubFirstLoad == Some(l);
    assert st'.listeners == RemoveListener(st.listeners, l) && st'.unsubFirstLoad.None?;
    RemoveListenerTakesOne(st.listeners, l);
    forall x | x in st'.listeners
      ensures x in st.listeners && !x.cb.FirstLoadLatch?
    {
      RemoveListenerCount(st.listeners, l, x);
    }
    SnapshotHasOneLatch(st, snap);
  }

  /** A snapshot that starts with the latch holds no other latch. */
  lemma SnapshotHasOneLatch(st: Latch, snap: seq<Callback>)
    requires Pending(st, snap) && snap != [] && snap[0].FirstLoadLatch?
    ensures forall c :: c in snap[1..] ==> !c.FirstLoadLatch?
  {
    var c0 := snap[0];
    assert snap == [c0] + snap[1..];
    forall c | c in snap[1..] ensures !c.FirstLoadLatch? {
      assert multiset(snap)[c] == multiset([c0])[c] + multiset(snap[1..])[c];
    }
  }

  /** Reaching a latch loads the engine, and nothing unloads it. */
  lemma {:induction false} DeliverOpensLatch(st: Latch, snap: seq<Callback>, guarded: bool)
    requires st.firstLoaded || exists i :: 0 <= i < |snap| && snap[i].FirstLoadLatch?
    ensures !Deliver(st, snap, guarded).threw ==> Deliver(st, snap, guarded).latch.firstLoaded
    decreases |snap|
  {
    if snap != [] {
      var (st', threw) := Step(st, snap[0], guarded);
      if !threw {
        if !st'.firstLoaded {
          var i :| 0 <= i < |snap| && snap[i].FirstLoadLatch?;
          assert snap[1..][i - 1] == snap[i];
        }
        DeliverOpensLatch(st', snap[1..], guarded);
      }
    }
  }

  /** The first `send:completed` an armed engine emits sets `firstLoaded`
      (unless a callback throws first). */
  lemma FirstCompletionLoads(st: Latch, guarded: bool)
    requires Armed(st)
    ensures var d := Deliver(st, Recipients(st.listeners, SendCompleted), guarded);
            !d.threw ==> d.latch.firstLoaded
  {
    var snap := Recipients(st.listeners, SendCompleted);
    if !st.firstLoaded {
      var l := st.unsubFirstLoad.value;
      RecipientsCount(st.listeners, SendCompleted, l.cb);
      assert l.cb in multiset(snap);
      var i :| 0 <= i < |snap| && snap[i] == l.cb;
    }
    DeliverOpensLatch(st, snap, guarded);
  }

  /** At most one wrapper `w` in the registry and the snapshot; while its
      callback is still ahead its unsubscribe is stored, afterwards it is
      gone. */
  ghost predicate LoneWrapper(st: Latch, snap: seq<Callback>, w: Listener)
  {
    && w.cb.AfterFirstLoad?
    && (forall c :: c in snap && c.AfterFirstLoad? ==> c == w.cb)
    && (forall l :: l in st.listeners && l.cb.AfterFirstLoad? ==> l == w)
    && multiset(st.listeners)[w] <= 1
    && (w.cb in snap ==> st.unsubFirstLoadCb == Some(w) && multiset(snap)[w.cb] == 1)
    && (w.cb !in snap ==> st.unsubFirstLoadCb.None? && w !in st.listeners)
  }

  lemma LoneWrapperPastHost(st: Latch, snap: seq<Callback>, guarded: bool, w: Listener)
    requires snap != [] && snap[0].Host? && Pending(st, snap) && LoneWrapper(st, snap, w)
    ensures Pending(st, snap[1..]) && LoneWrapper(st, snap[1..], w)
  {
    assert snap == [snap[0]] + snap[1..];
    assert forall c :: c in snap[1..] ==> c in snap;
  }

  lemma LoneWrapperPastLatch(st: Latch, snap: seq<Callback>, guarded: bool, w: Listener)
    requires snap != [] && snap[0].FirstLoadLatch? && Pending(st, snap) && LoneWrapper(st, snap, w)
    ensures !Step(st, snap[0], guarded).1
    ensures Pending(Step(st, snap[0], guarded).0, snap[1..])
    ensures LoneWrapper(Step(st, snap[0], guarded).0, snap[1..], w)
  {
    var c0 := snap[0];
    var st' := Step(st, c0, guarded).0;
    assert snap == [c0] + snap[1..];
    assert forall c :: c in snap[1..] ==> c in snap;
    var l := Listener(SendCompleted, c0);
    RemoveListenerTakesOne(st.listeners, l);
    forall x | x in st'.listeners
      ensures x in st.listeners
    {
      RemoveListenerCount(st.listeners, l, x);
    }
    RemoveListenerCount(st.listeners, l, w);
  }

  lemma LoneWrapperPastWrapper(st: Latch, snap: seq<Callback>, guarded: bool, w: Listener)
    requires snap != [] && snap[0].AfterFirstLoad? && Pending(st, snap) && LoneWrapper(st, snap, w)
    ensures !Step(st, snap[0], guarded).1
    ensures Pending(Step(st, snap[0], guarded).0, snap[1..])
    ensures LoneWrapper(Step(st, snap[0], guarded).0, snap[1..], w)
  {
    var c0 := snap[0];
    var st' := Step(st, c0, guarded).0;
    assert snap == [c0] + snap[1..];
    assert forall c :: c in snap[1..] ==> c in snap;
    RemoveListenerTakesOne(st.listeners, w);
    forall x | x in st'.listeners
      ensures x in st.listeners
    {
      RemoveListenerCount(st.listeners, w, x);
    }
    RemoveListenerCount(st.listeners, w, w);
  }

  /** A lone wrapper whose unsubscribe is stored is called once, then
      unsubscribes itself, and no wrapper is left. */
  lemma {:induction false} LoneWrapperLeaves(st: Latch, snap: seq<Callback>, guarded: bool, w: Listener)
    requires Pending(st, snap) && LoneWrapper(st, snap, w)
    ensures var d := Deliver(st, snap, guarded);
            && !d.threw && d.latch.unsubFirstLoadCb.None?
            && forall l :: l in d.latch.listeners ==> !l.cb.AfterFirstLoad?
    decreases |snap|
  {
    if snap != [] {
      var c0 := snap[0];
      match c0 {
        case Host(_) => LoneWrapperPastHost(st, snap, guarded, w);
        case FirstLoadLatch(_) => LoneWrapperPastLatch(st, snap, guarded, w);
        case AfterFirstLoad(_, _) => LoneWrapperPastWrapper(st, snap, guarded, w);
      }
      LoneWrapperLeaves(Step(st, c0, guarded).0, snap[1..], guarded, w);
    }
  }

  /** `afterFirstLoad(cb)` called once before the first load: the next
      `send:completed` calls `cb` exactly once and leaves no wrapper, so no
      later emission calls it again. */
  lemma OneWrapperRunsOnce(st: Latch, guarded: bool, w: Listener)
    requires Armed(st) && st.unsubFirstLoadCb == Some(w) && w in st.listeners
    requires multiset(st.listeners)[w] == 1
    requires forall l :: l in st.listeners && l.cb.AfterFirstLoad? ==> l == w
    ensures multiset(Recipients(st.listeners, SendCompleted))[w.cb] == 1
    ensures var d := Deliver(st, Recipients(st.listeners, SendCompleted), guarded);
            && !d.threw && d.latch.unsubFirstLoadCb.None?
            && forall c :: c in Recipients(d.latch.listeners, SendCompleted) ==> !c.AfterFirstLoad?
  {
    var snap := Recipients(st.listeners, SendCompleted);
    ArmedSnapshot(st, SendCompleted);
    RecipientsCount(st.listeners, SendCompleted, w.cb);
    forall c | c in snap && c.AfterFirstLoad?
      ensures c == w.cb
    {
      RecipientsCount(st.listeners, SendCompleted, c);
      assert Listener(SendCompleted, c) in st.listeners;
    }
    LoneWrapperLeaves(st, snap, guarded, w);
    var d := Deliver(st, snap, guarded);
    forall c | c in Recipients(d.latch.listeners, SendCompleted)
      ensures !c.AfterFirstLoad?
    {
      RecipientsCount(d.latch.listeners, SendCompleted, c);
      assert Listener(SendCompleted, c) in d.latch.listeners;
    }
  }

  /** The engine state right after construction and two `afterFirstLoad`
      calls with host callbacks `a` and `b`. */
  function TwoWaiting(a: nat, b: nat): Latch
  {
    AfterFirstLoadOn(AfterFirstLoadOn(Reset(Latch(false, None, None, []), 0), a, 1), b, 2)
  }

  /** The registry and the snapshot of `TwoWaiting`. */
  lemma TwoWaitingListeners(a: nat, b: nat)
    ensures TwoWaiting(a, b).listeners == [LatchListener(0), Wrapper(a, 1), Wrapper(b, 2)]
    ensures Recipients(TwoWaiting(a, b).listeners, SendCompleted)
            == [FirstLoadLatch(0), AfterFirstLoad(a, 1), AfterFirstLoad(b, 2)]
  {
    var l0, wa, wb := LatchListener(0), Wrapper(a, 1), Wrapper(b, 2);
    var ls := [l0, wa, wb];
    assert ls[..2] == [l0, wa] && [l0, wa][..1] == [l0] && [l0][..0] == [];
    assert Recipients([l0], SendCompleted) == [l0.cb];
    assert Recipients([l0, wa], SendCompleted) == [l0.cb, wa.cb];
  }

  /** The registry of `TwoWaiting` after the latch and after the first
      wrapper. */
  lemma TwoWaitingRegistry(a: nat, b: nat, guarded: bool)
    ensures TwoWaiting(a, b).listeners == [LatchListener(0), Wrapper(a, 1), Wrapper(b, 2)]
    ensures Recipients(TwoWaiting(a, b).listeners, SendCompleted)
            == [FirstLoadLatch(0), AfterFirstLoad(a, 1), AfterFirstLoad(b, 2)]
    ensures Step(TwoWaiting(a, b), FirstLoadLatch(0), guarded).0.listeners == [Wrapper(a, 1), Wrapper(b, 2)]
    ensures Step(Step(TwoWaiting(a, b), FirstLoadLatch(0), guarded).0, AfterFirstLoad(a, 1), guarded).0.listeners
            == [Wrapper(a, 1)]
  {
    TwoWaitingListeners(a, b);
    var l0, wa, wb := LatchListener(0), Wrapper(a, 1), Wrapper(b, 2);
    assert [l0, wa, wb][..2] == [l0, wa] && [l0, wa][..1] == [l0] && [l0][..0] == [];
    assert RemoveListener([l0, wa], l0) == [wa];
    assert RemoveListener([wa, wb], wb) == [wa] by {
      assert [wa, wb][..1] == [wa];
    }
  }

  /** src/wt.ts, two `afterFirstLoad` calls before the first load: the first
      wrapper unsubscribes the second, the second finds nothing stored, and
      the first stays subscribed, so `a` is called again on every later
      `send:completed`. */
  lemma TwoWaitingLeaveFirstWrapper(a: nat, b: nat)
    ensures var d := Deliver(TwoWaiting(a, b), Recipients(TwoWaiting(a, b).listeners, SendCompleted), true);
            && !d.threw && d.latch.firstLoaded
            && Recipients(d.latch.listeners, SendCompleted) == [AfterFirstLoad(a, 1)]
  {
    TwoWaitingRegistry(a, b, true);
    var st0 := TwoWaiting(a, b);
    var snap := [FirstLoadLatch(0), AfterFirstLoad(a, 1), AfterFirstLoad(b, 2)];
    var s1 := Step(st0, snap[0], true).0;
    var s2 := Step(s1, snap[1], true).0;
    assert Step(s2, snap[2], true) == (s2, false);
    assert snap[1..][1..][1..] == [];
    assert Deliver(s2, snap[1..][1..], true) == Delivery(s2, 1, false);
    assert Deliver(s1, snap[1..], true) == Delivery(s2, 2, false);
    assert Deliver(st0, snap, true) == Delivery(s2, 3, false);
    assert [Wrapper(a, 1)][..0] == [];
  }

  /** src/index.js, the same two calls: the second wrapper calls the
      forgotten unsubscribe and throws, ending the `emit` after the three
      callbacks, with the first wrapper still subscribed. */
  lemma TwoWaitingThrow(a: nat, b: nat)
    ensures var d := Deliver(TwoWaiting(a, b), Recipients(TwoWaiting(a, b).listeners, SendCompleted), false);
            && d.threw && d.reached == 3 && d.latch.firstLoaded
            && Recipients(d.latch.listeners, SendCompleted) == [AfterFirstLoad(a, 1)]
  {
    TwoWaitingRegistry(a, b, false);
    var st0 := TwoWaiting(a, b);
    var snap := [FirstLoadLatch(0), AfterFirstLoad(a, 1), AfterFirstLoad(b, 2)];
    var s1 := Step(st0, snap[0], false).0;
    var s2 := Step(s1, snap[1], false).0;
    assert Step(s2, snap[2], false) == (s2, true);
    assert Deliver(s2, snap[1..][1..], false) == Delivery(s2, 1, true);
    assert Deliver(s1, snap[1..], false) == Delivery(s2, 2, true);
    assert Deliver(st0, snap, false) == Delivery(s2, 3, true);
    assert [Wrapper(a, 1)][..0] == [];
  }
}

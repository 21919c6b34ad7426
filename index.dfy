/** The oldest engine, class `WT` of src/index.js, and its `withContext`
    command dispatcher. It delivers by tracking pixel only, with a fixed
    debouncer, and keeps its defaults and configuration in objects that
    `assign` updates in place. Its first-load latch calls the stored
    unsubscribe functions unguarded, so an `emit` can throw.

    The host drives it as it drives the other engines: timers firing and
    the pixel's `load` and `error` events are methods, and the clock and
    the random draws are arguments. */
module Index {
  import opened Js
  import opened Utils
  import opened Debounce
  import opened Signals
  import opened FirstLoad
  import opened Identity
  import opened Batch
  import opened Host
  import opened LegacyEvent
  import opened Assign

  /** The pixel request in flight: `src` is `${getUrl()}?` followed by the
      query string serialising `payload`. */
  datatype PixelRequest = PixelRequest(src: string, payload: Payload)

  /** `getRequestEnvironmentArgs()`: no `wvt`, no visitor token. */
  function RequestEnv(ctx: Context, now: int): (env: Record)
    ensures Wf(env)
  {
    Record(["dimensions", "agent", "rts"],
           map["dimensions" := Dimensions(ctx), "agent" := Str(ctx.userAgent), "rts" := Num(now)])
  }

  /** The pixel address up to the query string. */
  function PixelSrc(cfg: Record, ctx: Context): string
  {
    GetUrl(cfg, ctx) + "?"
  }

  /** What `run(cmd, ...args)` does with `wt[cmd]`. */
  datatype Route =
    | CallMember(name: string)
    | NotCallable(name: string)
    | HandleAsEvent

  /** `if (wt[cmd]) return wt[cmd](...args); return wt.handleEvent(cmd, ...args);`:
      a truthy member is called (a `TypeError` when it is not a function),
      anything else is tracked as an event named `cmd`. */
  function RouteOf(cmd: string, member: Value): (r: Route)
    ensures r == HandleAsEvent <==> !Truthy(member)
    ensures r == CallMember(cmd) <==> member.Func?
    ensures r == NotCallable(cmd) <==> Truthy(member) && !member.Func?
  {
    if !Truthy(member) then HandleAsEvent
    else if member.Func? then CallMember(cmd)
    else NotCallable(cmd)
  }

  /** The methods of the class, which every instance has. */
  const Methods: set<string> := {
    "constructor", "resetFirstLoad", "afterFirstLoad", "initialize", "getVisitorToken",
    "getUUIDToken", "getLoaderImage", "getUrl", "getRoot", "sendToServer",
    "getRequestEnvironmentArgs", "getEventEnvironmentArgs", "processEvents", "handleEvent",
    "signalEventChange", "flush", "clear", "set", "config", "subscribe", "instance"}

  /** The own properties whose value is always an object. */
  const ObjectFields: set<string> := {"emitter", "wtConfig", "context", "paramDefaults", "eventQueue"}

  /** The own properties whose value depends on the state. */
  const StateFields: set<string> := {
    "processEventsDebounced", "loading", "pageUuid", "firstLoaded", "unsubFirstLoad",
    "unsubFirstLoadCb", "uuid", "loaderImage"}

  /** A string field the constructor sets to `null`. */
  function StringField(s: Option<string>): (v: Value)
    ensures Truthy(v) <==> s.Some? && s.value != ""
  {
    if s.Some? then Str(s.value) else Null
  }

  /** The `page_uuid` of an event: the cached `pageUuid` when truthy,
      otherwise what `getUUIDToken` returns. */
  function PageToken(cached: Option<string>, jar: Jar, drawn: string): (token: string)
    requires IsUuidV4(drawn)
    ensures token != ""
    ensures Truthy(StringField(cached)) ==> token == cached.value
    ensures !Truthy(StringField(cached)) ==> token == PeekOrMint(jar, PageUuidKey, drawn)
  {
    if cached.Some? && cached.value != "" then cached.value else PeekOrMint(jar, PageUuidKey, drawn)
  }

  /** Every record the oldest engine queues carries a non-empty
      `page_uuid`: the cached token, the page cookie or a fresh uuid. */
  lemma PageUuidAlwaysSent(kind: Value, p: Record, defaults: Record, ctx: Context,
                           cached: Option<string>, jar: Jar, drawn: string, now: int)
    requires Wf(defaults) && IsUuidV4(drawn)
    ensures var token := PageToken(cached, jar, drawn);
      var e := IndexEvent(kind, p, defaults, ctx, token, now);
      && "page_uuid" in e.vals && e.vals["page_uuid"] == Str(token) && token != ""
  {
    var token := PageToken(cached, jar, drawn);
    LegacyEvent.EventPageUuid(kind, p, IndexMetadata(defaults, p), ctx, Str(token), now);
  }

  /** `uuid` after an event's page token is found: `getUUIDToken` runs,
      and writes it, only when the cached `pageUuid` is not truthy. */
  function LookedUp(uuid: Option<string>, cached: Option<string>, jar: Jar, drawn: string): Option<string>
    requires IsUuidV4(drawn)
  {
    if Truthy(StringField(cached)) then uuid else Some(PeekOrMint(jar, PageUuidKey, drawn))
  }

  class WT {
    var loading: bool
    var firstLoaded: bool
    /** The listener the stored `unsubFirstLoad` function removes. */
    var unsubFirstLoad: Option<Listener>
    /** The listener the stored `unsubFirstLoadCb` function removes. */
    var unsubFirstLoadCb: Option<Listener>
    /** The `EventEmitter`'s listeners. */
    var listeners: seq<Listener>
    /** The number of engine closures created so far: the next one's identity. */
    var serial: nat
    var wtConfig: JsObject
    var paramDefaults: JsObject
    var eventQueue: seq<Record>
    /** Read by `getEventEnvironmentArgs`; nothing ever writes it. */
    var pageUuid: Option<string>
    /** Written by `getUUIDToken`; nothing reads it. */
    var uuid: Option<string>
    const context: Context
    /** Built once by the constructor with the fixed 500/1500 ms waits. */
    const processEventsDebounced: Debouncer<()>
    /** Whether `sendToServer` has created `loaderImage` yet. */
    var loaderImage: bool
    var trace: seq<Notice>
    var cookies: Jar
    var sending: Option<PixelRequest>

    /** The fields the first-load logic works on. */
    function LatchOf(): Latch
      reads this`firstLoaded, this`unsubFirstLoad, this`unsubFirstLoadCb, this`listeners
    {
      Latch(firstLoaded, unsubFirstLoad, unsubFirstLoadCb, listeners)
    }

    /** Two distinct objects for the configuration and the defaults, and the
        fixed debouncer. */
    ghost predicate Configured()
      reads this`wtConfig, this`paramDefaults, wtConfig, paramDefaults, processEventsDebounced
    {
      && wtConfig != paramDefaults
      && Wf(wtConfig.props)
      && Wf(paramDefaults.props)
      && processEventsDebounced.Valid()
      && processEventsDebounced.min == Num(DebounceMinDefault)
      && processEventsDebounced.maxWait == Num(DebounceMaxDefault)
    }

    /** Configured, the first-load latch armed, and a pixel in flight only
        while `loading`. */
    ghost predicate Valid()
      reads this`wtConfig, this`paramDefaults, wtConfig, paramDefaults, processEventsDebounced
      reads this`firstLoaded, this`unsubFirstLoad, this`unsubFirstLoadCb, this`listeners
      reads this`loading, this`sending
    {
      && Configured()
      && Armed(LatchOf())
      && (sending.Some? ==> loading)
    }

    /** `new WT(context)` on a page whose cookie jar is `cookies`: the
        constructor runs `resetFirstLoad`, whose latch is closure 0. */
    constructor (context: Context, cookies: Jar)
      ensures Valid() && fresh(wtConfig) && fresh(paramDefaults) && fresh(processEventsDebounced)
      ensures this.context == context && this.cookies == cookies
      ensures LatchOf() == Reset(Latch(false, None, None, []), 0) && serial == 1
      ensures !loading && sending.None? && eventQueue == [] && pageUuid.None? && uuid.None? && !loaderImage
      ensures wtConfig.props == Empty && paramDefaults.props == Empty
      ensures trace == [] && processEventsDebounced.Idle()
    {
      this.context := context;
      this.cookies := cookies;
      loading := false;
      sending := None;
      eventQueue := [];
      pageUuid := None;
      uuid := None;
      loaderImage := false;
      trace := [];
      wtConfig := new JsObject(Empty);
      paramDefaults := new JsObject(Empty);
      processEventsDebounced := new Debouncer(Num(DebounceMinDefault), Num(DebounceMaxDefault));
      var st := Reset(Latch(false, None, None, []), 0);
      ResetArms(Latch(false, None, None, []), 0);
      firstLoaded, unsubFirstLoad, unsubFirstLoadCb, listeners := st.firstLoaded, st.unsubFirstLoad, st.unsubFirstLoadCb, st.listeners;
      serial := 1;
    }

    /** Writes the first-load fields back. */
    method Store(st: Latch)
      modifies this`firstLoaded, this`unsubFirstLoad, this`unsubFirstLoadCb, this`listeners
      ensures LatchOf() == st
    {
      firstLoaded, unsubFirstLoad, unsubFirstLoadCb, listeners := st.firstLoaded, st.unsubFirstLoad, st.unsubFirstLoadCb, st.listeners;
    }

    /** `resetFirstLoad()`: not loaded again, with a new latch subscribed. */
    method ResetFirstLoad()
      requires Valid()
      modifies this`firstLoaded, this`unsubFirstLoad, this`unsubFirstLoadCb, this`listeners, this`serial
      ensures Valid()
      ensures LatchOf() == Reset(old(LatchOf()), old(serial)) && serial == old(serial) + 1
      ensures !firstLoaded
    {
      ResetArms(LatchOf(), serial);
      Store(Reset(LatchOf(), serial));
      serial := serial + 1;
    }

    /** `afterFirstLoad(cb)`: after the first load `cb` is called at once;
        before it, a wrapper is subscribed to `send:completed`. */
    method AfterFirstLoad(cb: nat)
      requires Valid()
      modifies this`firstLoaded, this`unsubFirstLoad, this`unsubFirstLoadCb, this`listeners, this`serial, this`trace
      ensures Valid()
      ensures LatchOf() == AfterFirstLoadOn(old(LatchOf()), cb, old(serial))
      ensures old(firstLoaded) ==> trace == old(trace) + [CalledNow(cb)] && serial == old(serial)
      ensures !old(firstLoaded) ==> trace == old(trace) && serial == old(serial) + 1
    {
      if firstLoaded {
        trace := trace + [CalledNow(cb)];
      } else {
        RegisterKeepsArmed(LatchOf(), cb, serial);
        Store(AfterFirstLoadOn(LatchOf(), cb, serial));
        serial := serial + 1;
      }
    }

    /** `getUUIDToken()`: the page cookie's token, or a fresh one that is
        not stored, goes to `uuid`, where nothing reads it. */
    method GetUUIDToken(drawn: string) returns (token: string)
      requires Valid() && IsUuidV4(drawn)
      modifies this`uuid
      ensures Valid()
      ensures token == PeekOrMint(cookies, PageUuidKey, drawn) && uuid == Some(token)
    {
      token := PeekOrMint(cookies, PageUuidKey, drawn);
      uuid := Some(token);
    }

    /** `getVisitorToken()`: the visitor cookie, created when missing; the
        query string is not consulted. */
    method GetVisitorToken(drawn: string) returns (token: string)
      requires Valid() && IsUuidV4(drawn)
      modifies this`cookies
      ensures Valid()
      ensures (token, cookies) == FindOrSetCookie(old(cookies), VisitorTokenKey, drawn)
    {
      var r := FindOrSetCookie(cookies, VisitorTokenKey, drawn);
      token, cookies := r.0, r.1;
    }

    /** `initialize(config)`: the configuration is REPLACED by the update's
        result; when its `cookies` option is set, the page token is looked
        up and the visitor cookie made to exist. The host must pass an
        object. */
    method Initialize(update: Update<Record>, pageDrawn: string, visitorDrawn: string)
      requires Valid() && IsUuidV4(pageDrawn) && IsUuidV4(visitorDrawn)
      requires Wf(ResolveMethod(update, wtConfig.props))
      modifies this`wtConfig, this`uuid, this`cookies
      ensures Valid() && fresh(wtConfig)
      ensures wtConfig.props == ResolveMethod(update, old(wtConfig.props))
      ensures !Truthy(Get(wtConfig.props, "cookies")) ==> cookies == old(cookies) && uuid == old(uuid)
      ensures Truthy(Get(wtConfig.props, "cookies")) ==>
        && uuid == Some(PeekOrMint(old(cookies), PageUuidKey, pageDrawn))
        && cookies == FindOrSetCookie(old(cookies), VisitorTokenKey, visitorDrawn).1
    {
      wtConfig := new JsObject(ResolveMethod(update, wtConfig.props));
      if Truthy(Get(wtConfig.props, "cookies")) {
        var _ := GetUUIDToken(pageDrawn);
        var _ := GetVisitorToken(visitorDrawn);
      }
    }

    /** `config(update)`: the update's keys are assigned onto the
        configuration object in place. */
    method Config(update: Update<Record>)
      requires Valid()
      modifies wtConfig
      ensures Valid()
      ensures wtConfig.props == AssignAll(old(wtConfig.props), [ResolveMethod(update, old(wtConfig.props))])
      ensures wtConfig.props == Spread(old(wtConfig.props), ResolveMethod(update, old(wtConfig.props)))
    {
      var _ := Assign.Assign(wtConfig, [ResolveMethod(update, wtConfig.props)]);
    }

    /** `set(update)`: the update's keys are assigned onto the defaults
        object in place. */
    method Set(update: Update<Record>)
      requires Valid()
      modifies paramDefaults
      ensures Valid()
      ensures paramDefaults.props == AssignAll(old(paramDefaults.props), [ResolveMethod(update, old(paramDefaults.props))])
      ensures paramDefaults.props == Spread(old(paramDefaults.props), ResolveMethod(update, old(paramDefaults.props)))
    {
      var _ := Assign.Assign(paramDefaults, [ResolveMethod(update, paramDefaults.props)]);
    }

    /** `clear()`: a new, empty defaults object. */
    method Clear()
      requires Valid()
      modifies this`paramDefaults
      ensures Valid() && fresh(paramDefaults) && paramDefaults.props == Empty
    {
      paramDefaults := new JsObject(Empty);
    }

    /** `subscribe(signal, cb)` with a host callback; the result stands for
        the returned unsubscribe function. */
    method Subscribe(signal: string, cb: nat) returns (unsub: Listener)
      requires Valid()
      modifies this`listeners
      ensures Valid()
      ensures listeners == On(old(listeners), signal, Host(cb))
      ensures unsub == Listener(signal, Host(cb))
    {
      AddKeepsArmed(LatchOf(), Listener(signal, Host(cb)));
      listeners := On(listeners, signal, Host(cb));
      unsub := Listener(signal, Host(cb));
    }

    /** Calling a function `subscribe` returned to the host. */
    method Unsubscribe(unsub: Listener)
      requires Valid() && unsub.cb.Host?
      modifies this`listeners
      ensures Valid()
      ensures listeners == RemoveListener(old(listeners), unsub)
    {
      RemoveKeepsArmed(LatchOf(), unsub);
      listeners := RemoveListener(listeners, unsub);
    }

    /** `emitter.emit(signal)`: the callbacks subscribed when it starts run
        in order until one throws; the engine's own call the stored
        unsubscribe functions unguarded. Signals other than
        `send:completed` reach host callbacks only and never throw. */
    method Emit(signal: string) returns (threw: bool)
      requires Valid()
      modifies this`firstLoaded, this`unsubFirstLoad, this`unsubFirstLoadCb, this`listeners, this`trace
      ensures Valid()
      ensures var d := Deliver(old(LatchOf()), Recipients(old(listeners), signal), false);
              && LatchOf() == d.latch && threw == d.threw
              && trace == old(trace) + [Emitted(signal, Recipients(old(listeners), signal)[..d.reached])]
      ensures signal != SendCompleted ==>
              && !threw && LatchOf() == old(LatchOf())
              && trace == old(trace) + [Emitted(signal, Recipients(old(listeners), signal))]
    {
      var st := LatchOf();
      var snap := Recipients(listeners, signal);
      ArmedSnapshot(st, signal);
      DeliverKeepsArmed(st, snap, false);
      if signal != SendCompleted {
        DeliverHostsOnly(st, snap, false);
        assert snap[..|snap|] == snap;
      }
      var d := Deliver(st, snap, false);
      Store(d.latch);
      threw := d.threw;
      trace := trace + [Emitted(signal, snap[..d.reached])];
    }

    /** `getEventEnvironmentArgs().page_uuid`: `this.pageUuid || this.getUUIDToken()`.
        Nothing sets `pageUuid`, so every event looks the page token up
        again, and without the cookie every event gets a new one. */
    method EventPageUuid(drawn: string) returns (token: string)
      requires Valid() && IsUuidV4(drawn)
      modifies this`uuid
      ensures Valid()
      ensures token == PageToken(pageUuid, cookies, drawn)
      ensures uuid == LookedUp(old(uuid), pageUuid, cookies, drawn)
    {
      if pageUuid.Some? && pageUuid.value != "" {
        token := pageUuid.value;
      } else {
        token := GetUUIDToken(drawn);
      }
    }

    /** `handleEvent(kind, payload)` at time `now`: the record is queued
        and the debouncer signalled. */
    method HandleEvent(kind: Value, payload: Record, drawn: string, now: int)
      requires Valid() && IsUuidV4(drawn)
      modifies this`eventQueue, this`uuid, processEventsDebounced
      ensures Valid()
      ensures uuid == LookedUp(old(uuid), pageUuid, cookies, drawn)
      ensures eventQueue == old(eventQueue)
                            + [IndexEvent(kind, payload, old(paramDefaults.props), context,
                                          PageToken(pageUuid, cookies, drawn), now)]
      ensures processEventsDebounced.burst == old(processEventsDebounced.burst) + [()]
    {
      var token := EventPageUuid(drawn);
      Enqueue(kind, payload, token, now);
    }

    /** The record of `handleEvent` with page token `token`, queued. */
    method Enqueue(kind: Value, payload: Record, token: string, now: int)
      requires Valid()
      modifies this`eventQueue, processEventsDebounced
      ensures Valid()
      ensures eventQueue == old(eventQueue)
                            + [IndexEvent(kind, payload, old(paramDefaults.props), context, token, now)]
      ensures processEventsDebounced.burst == old(processEventsDebounced.burst) + [()]
    {
      var ev := IndexEvent(kind, payload, paramDefaults.props, context, token, now);
      Push(ev);
    }

    /** The end of `handleEvent`: the record goes to the tail of the queue
        and `signalEventChange()` calls the debounced `processEvents`. */
    method Push(ev: Record)
      requires Valid()
      modifies this`eventQueue, processEventsDebounced
      ensures Valid()
      ensures eventQueue == old(eventQueue) + [ev]
      ensures processEventsDebounced.burst == old(processEventsDebounced.burst) + [()]
    {
      eventQueue := eventQueue + [ev];
      processEventsDebounced.Call(());
    }

    /** What `processEvents` at time `now` does to the state. */
    twostate predicate ProcessedEvents(now: int)
      reads this, wtConfig
    {
      && LatchOf() == old(LatchOf())
      && (old(loading) ==>
            eventQueue == old(eventQueue) && loading && sending == old(sending) && trace == old(trace))
      && (!old(loading) ==>
            && eventQueue == Rest(old(eventQueue))
            && (Head(old(eventQueue)) == [] ==>
                  !loading && sending == old(sending) && trace == old(trace))
            && (Head(old(eventQueue)) != [] ==>
                  && loading && loaderImage
                  && trace == old(trace) + [Emitted(SendStarted, Recipients(listeners, SendStarted))]
                  && sending == Some(PixelRequest(PixelSrc(wtConfig.props, context),
                                                  Payload(Head(old(eventQueue)), RequestEnv(context, now))))))
    }

    /** `processEvents()`: while a delivery is pending nothing happens;
        otherwise the head batch leaves the queue and, when it is not
        empty, `send:started` is emitted and the pixel requested. */
    method ProcessEvents(now: int)
      requires Valid()
      modifies this`eventQueue, this`loading, this`sending, this`trace, this`loaderImage
      modifies this`firstLoaded, this`unsubFirstLoad, this`unsubFirstLoadCb, this`listeners
      ensures Valid()
      ensures ProcessedEvents(now)
    {
      if loading {
        return;
      }
      var events := Head(eventQueue);
      eventQueue := Rest(eventQueue);
      if |events| > 0 {
        StartSend(Payload(events, RequestEnv(context, now)));
      }
    }

    /** A non-empty batch: `loading` is set, `send:started` is emitted and
        the pixel requested. */
    method StartSend(payload: Payload)
      requires Valid() && !loading
      modifies this`loading, this`sending, this`trace, this`loaderImage
      modifies this`firstLoaded, this`unsubFirstLoad, this`unsubFirstLoadCb, this`listeners
      ensures Valid() && loading && loaderImage && LatchOf() == old(LatchOf())
      ensures trace == old(trace) + [Emitted(SendStarted, Recipients(listeners, SendStarted))]
      ensures sending == Some(PixelRequest(PixelSrc(wtConfig.props, context), payload))
    {
      loading := true;
      var _ := Emit(SendStarted);
      SendToServer(payload);
    }

    /** `sendToServer(payload)`: the pixel, created on first use, is
        pointed at the tracker with the payload as its query. */
    method SendToServer(payload: Payload)
      requires Valid() && loading
      modifies this`sending, this`loaderImage
      ensures Valid() && loaderImage
      ensures sending == Some(PixelRequest(PixelSrc(wtConfig.props, context), payload))
    {
      loaderImage := true;
      sending := Some(PixelRequest(PixelSrc(wtConfig.props, context), payload));
    }

    /** `flush()`: runs `processEvents` now when a call is pending, without
        cancelling the timers. */
    method Flush(now: int)
      requires Valid()
      modifies this`eventQueue, this`loading, this`sending, this`trace, this`loaderImage
      modifies this`firstLoaded, this`unsubFirstLoad, this`unsubFirstLoadCb, this`listeners
      ensures Valid()
      ensures processEventsDebounced.burst != [] ==> ProcessedEvents(now)
      ensures processEventsDebounced.burst == [] ==>
        && eventQueue == old(eventQueue) && loading == old(loading)
        && sending == old(sending) && trace == old(trace) && LatchOf() == old(LatchOf())
    {
      var call := processEventsDebounced.Flush();
      if call.Some? {
        ProcessEvents(now);
      }
    }

    /** The quiet-period timer of the debouncer fires. */
    method OnMinTimer(now: int)
      requires Valid() && processEventsDebounced.minTimer.Some?
      modifies this`eventQueue, this`loading, this`sending, this`trace, this`loaderImage, processEventsDebounced
      modifies this`firstLoaded, this`unsubFirstLoad, this`unsubFirstLoadCb, this`listeners
      ensures Valid() && processEventsDebounced.Idle()
      ensures ProcessedEvents(now)
    {
      var _ := processEventsDebounced.FireMin();
      ProcessEvents(now);
    }

    /** The ceiling timer of the debouncer fires. */
    method OnMaxTimer(now: int)
      requires Valid() && processEventsDebounced.maxTimer.Some?
      modifies this`eventQueue, this`loading, this`sending, this`trace, this`loaderImage, processEventsDebounced
      modifies this`firstLoaded, this`unsubFirstLoad, this`unsubFirstLoadCb, this`listeners
      ensures Valid() && processEventsDebounced.Idle()
      ensures ProcessedEvents(now)
    {
      var _ := processEventsDebounced.FireMax();
      ProcessEvents(now);
    }

    /** What the pixel's `load` handler does through `resolve`: the
        request is over; `send:completed` is emitted, and unless a callback
        throws, `queue:continued` (after signalling the debouncer when
        events are waiting) or `queue:completed` follows and `loading` is
        cleared. A throw leaves `loading` set, with no request in flight. */
    twostate predicate Resolved(threw: bool)
      reads this, processEventsDebounced
    {
      var snap := Recipients(old(listeners), SendCompleted);
      var d := Deliver(old(LatchOf()), snap, false);
      var next := if eventQueue != [] then QueueContinued else QueueCompleted;
      && sending.None?
      && threw == d.threw
      && LatchOf() == d.latch
      && (threw ==>
            && loading
            && trace == old(trace) + [Emitted(SendCompleted, snap[..d.reached])]
            && processEventsDebounced.burst == old(processEventsDebounced.burst))
      && (!threw ==>
            && !loading && firstLoaded
            && trace == old(trace) + [Emitted(SendCompleted, snap), Emitted(next, Recipients(listeners, next))]
            && processEventsDebounced.burst
               == old(processEventsDebounced.burst) + if eventQueue != [] then [()] else [])
    }

    /** The pixel loads: its handlers are removed and `resolve` runs. */
    method OnPixelLoad() returns (threw: bool)
      requires Valid() && sending.Some?
      modifies this`loading, this`sending, this`trace, processEventsDebounced
      modifies this`firstLoaded, this`unsubFirstLoad, this`unsubFirstLoadCb, this`listeners
      ensures Valid() && Resolved(threw)
    {
      ghost var snap := Recipients(listeners, SendCompleted);
      FirstCompletionLoads(LatchOf(), false);
      sending := None;
      threw := Emit(SendCompleted);
      if !threw {
        assert snap[..|snap|] == snap;
        assert trace == old(trace) + [Emitted(SendCompleted, snap)];
        Settle();
      }
    }

    /** The rest of `resolve` once `send:completed` went through: the queue
        signal, then `loading` is cleared. */
    method Settle()
      requires Valid() && sending.None?
      modifies this`loading, this`trace, processEventsDebounced
      modifies this`firstLoaded, this`unsubFirstLoad, this`unsubFirstLoadCb, this`listeners
      ensures Valid() && !loading && LatchOf() == old(LatchOf())
      ensures var next := if eventQueue != [] then QueueContinued else QueueCompleted;
              trace == old(trace) + [Emitted(next, Recipients(listeners, next))]
      ensures processEventsDebounced.burst
              == old(processEventsDebounced.burst) + if eventQueue != [] then [()] else []
    {
      SignalQueueState();
      loading := false;
    }

    /** The middle of `resolve`: `queue:continued` after signalling the
        debouncer when events are waiting, `queue:completed` otherwise. */
    method SignalQueueState()
      requires Valid()
      modifies this`trace, processEventsDebounced
      modifies this`firstLoaded, this`unsubFirstLoad, this`unsubFirstLoadCb, this`listeners
      ensures Valid() && LatchOf() == old(LatchOf())
      ensures var next := if eventQueue != [] then QueueContinued else QueueCompleted;
              trace == old(trace) + [Emitted(next, Recipients(listeners, next))]
      ensures processEventsDebounced.burst
              == old(processEventsDebounced.burst) + if eventQueue != [] then [()] else []
    {
      if |eventQueue| > 0 {
        processEventsDebounced.Call(());
        var _ := Emit(QueueContinued);
      } else {
        var _ := Emit(QueueCompleted);
      }
    }

    /** The pixel fails: its handlers are removed and `reject` drops the
        batch, with no signal. */
    method OnPixelError()
      requires Valid() && sending.Some?
      modifies this`loading, this`sending
      ensures Valid() && !loading && sending.None?
    {
      loading, sending := false, None;
    }

    /** `wt[name]` as `run` sees it: the methods, the debounced function and
        the stored unsubscribe functions are functions; the emitter, the
        configuration, the context, the defaults and the queue are objects;
        the other fields hold their current value; any other name is
        `undefined`. */
    function Property(name: string): (v: Value)
      reads this`loading, this`pageUuid, this`firstLoaded, this`unsubFirstLoad, this`unsubFirstLoadCb
      reads this`uuid, this`loaderImage
      ensures name in Methods ==> v.Func?
      ensures name in ObjectFields ==> v.Obj?
      ensures name !in Methods + ObjectFields + StateFields ==> v == Undefined
    {
      if name in Methods || name == "processEventsDebounced" then Func(0)
      else if name in ObjectFields then Obj(Empty)
      else if name == "loading" then Bool(loading)
      else if name == "firstLoaded" then Bool(firstLoaded)
      else if name == "pageUuid" then StringField(pageUuid)
      else if name == "uuid" then (if uuid.Some? then Str(uuid.value) else Undefined)
      else if name == "unsubFirstLoad" then (if unsubFirstLoad.Some? then Func(0) else Undefined)
      else if name == "unsubFirstLoadCb" then (if unsubFirstLoadCb.Some? then Func(0) else Undefined)
      else if name == "loaderImage" then (if loaderImage then Obj(Empty) else Undefined)
      else Undefined
    }

    /** `run(cmd, payload)` of `withContext`: a member named `cmd` is
        reported for the caller to invoke (or to throw on, when it is not a
        function); otherwise the command is tracked as `handleEvent(cmd,
        payload)`. */
    method Run(cmd: string, payload: Record, drawn: string, now: int) returns (route: Route)
      requires Valid() && IsUuidV4(drawn)
      modifies this`eventQueue, this`uuid, processEventsDebounced
      ensures Valid()
      ensures route == RouteOf(cmd, old(Property(cmd)))
      ensures route.HandleAsEvent? ==>
        && uuid == LookedUp(old(uuid), pageUuid, cookies, drawn)
        && eventQueue == old(eventQueue)
                         + [IndexEvent(Str(cmd), payload, old(paramDefaults.props), context,
                                       PageToken(pageUuid, cookies, drawn), now)]
        && processEventsDebounced.burst == old(processEventsDebounced.burst) + [()]
      ensures !route.HandleAsEvent? ==>
        && eventQueue == old(eventQueue) && uuid == old(uuid)
        && processEventsDebounced.burst == old(processEventsDebounced.burst)
    {
      route := RouteOf(cmd, Property(cmd));
      if route.HandleAsEvent? {
        HandleEvent(Str(cmd), payload, drawn, now);
      }
    }

    /** A name that is no member of the engine is tracked as an event. */
    lemma UnknownCommand(cmd: string)
      requires cmd !in Methods + ObjectFields + StateFields
      ensures RouteOf(cmd, Property(cmd)) == HandleAsEvent
    {
    }

    /** `wt('initialize', ...)` calls the method. */
    lemma InitializeCommand()
      ensures RouteOf("initialize", Property("initialize")) == CallMember("initialize")
    {
    }

    /** `wt('test', ...)` of the oldest tests is tracked as an event. */
    lemma TestCommand()
      ensures RouteOf("test", Property("test")) == HandleAsEvent
    {
      assert "test" !in Methods && "test" !in ObjectFields && "test" !in StateFields;
      UnknownCommand("test");
    }

    /** `wt('event', ...)` of the oldest tests is tracked as an event. */
    lemma EventCommand()
      ensures RouteOf("event", Property("event")) == HandleAsEvent
    {
      assert "event" !in Methods && "event" !in ObjectFields && "event" !in StateFields;
      UnknownCommand("event");
    }

    /** A state field is a command too: `wt('loading')` is tracked as an
        event while no delivery is pending, and throws while one is. */
    lemma LoadingCommand()
      ensures RouteOf("loading", Property("loading")) == if loading then NotCallable("loading") else HandleAsEvent
    {
      assert "loading" !in Methods + ObjectFields;
    }
  }
}

/** The previous engine, class `WT` of src/wt.ts. Like the current one it
    queues event records and sends them in batches of at most `BatchMax`,
    one delivery at a time, but it posts with `fetch` and falls back to a
    tracking pixel when the `fetch` fails, and it keeps the first-load
    latch of module `FirstLoad` beside its listeners.

    The host drives it: timers firing and the settling of the pending
    `fetch` or pixel are methods, and the clock and the random draws are
    arguments. Host callbacks are known by their identity; what the host
    sees is `trace`: each signal with the callbacks it reached, and each
    `afterFirstLoad` callback called at once. */
module Wt {
  import opened Js
  import opened Utils
  import opened Debounce
  import opened Signals
  import opened FirstLoad
  import opened Identity
  import opened Batch
  import opened Host
  import opened LegacyEvent

  /** The delivery in progress: the `fetch` whose promise has not settled,
      or, after it was rejected, the pixel whose `src` was set to the
      fallback address (`src` is that address up to the query string
      serialising `payload`). */
  datatype Transfer =
    | Fetching(url: string, payload: Payload)
    | PixelLoading(src: string, payload: Payload)

  /** `{ cookies: { expires: EXPIRES_IN_DAYS } }` */
  function InitialConfig(): (cfg: Record)
    ensures Wf(cfg)
  {
    Record(["cookies"], map["cookies" := Obj(Record(["expires"], map["expires" := Num(ExpiresInDays)]))])
  }

  /** `getRequestEnvironmentArgs()`: no visitor token, unlike the current
      engine. */
  function RequestEnv(ctx: Context, now: int): (env: Record)
    ensures Wf(env)
  {
    Record(["dimensions", "agent", "rts", "wvt"],
           map["dimensions" := Dimensions(ctx), "agent" := Str(ctx.userAgent),
               "rts" := Num(now), "wvt" := QueryToken(ctx.wvt)])
  }

  /** The pixel address of the fallback, `${getUrl()}?fallback=true&`. */
  function FallbackSrc(cfg: Record, ctx: Context): string
  {
    GetUrl(cfg, ctx) + "?fallback=true&"
  }

  class WT {
    var loading: bool
    var firstLoaded: bool
    /** The listener the stored `unsubFirstLoad` function removes. */
    var unsubFirstLoad: Option<Listener>
    /** The listener the stored `unsubFirstLoadCb` function removes. */
    var unsubFirstLoadCb: Option<Listener>
    /** The `EventEmitter`'s listeners. */
    var listeners: seq<Listener>
    /** The number of engine closures created so far: the next one's identity. */
    var serial: nat
    var wtConfig: Record
    var paramDefaults: Record
    var eventQueue: seq<Record>
    var pageUuid: Option<string>
    const context: Context
    /** `processEventsDebounced`, rebuilt by every `config`. */
    var processEventsDebounced: Debouncer<()>
    /** Replaced debouncers with a pending timer: each still runs
        `processEvents` once when its first timer fires. */
    var retiredTimers: nat
    var trace: seq<Notice>
    var cookies: Jar
    var sending: Option<Transfer>

    /** The fields the first-load logic works on. */
    function LatchOf(): Latch
      reads this`firstLoaded, this`unsubFirstLoad, this`unsubFirstLoadCb, this`listeners
    {
      Latch(firstLoaded, unsubFirstLoad, unsubFirstLoadCb, listeners)
    }

    /** The configuration, the defaults and the debouncer built from the
        configuration's `debounce` options. */
    ghost predicate Configured()
      reads this`wtConfig, this`paramDefaults, this`processEventsDebounced, processEventsDebounced
    {
      && Wf(wtConfig)
      && Wf(paramDefaults)
      && processEventsDebounced.Valid()
      && processEventsDebounced.min == DebounceOption(wtConfig, "min", DebounceMinDefault)
      && processEventsDebounced.maxWait == DebounceOption(wtConfig, "max", DebounceMaxDefault)
    }

    /** Configured, the first-load latch armed, and `loading` set exactly
        while a delivery is in progress. */
    ghost predicate Valid()
      reads this`wtConfig, this`paramDefaults, this`processEventsDebounced, processEventsDebounced
      reads this`firstLoaded, this`unsubFirstLoad, this`unsubFirstLoadCb, this`listeners
      reads this`loading, this`sending
    {
      && Configured()
      && Armed(LatchOf())
      && (loading <==> sending.Some?)
    }

    /** `new WT(context)` on a page whose cookie jar is `cookies`: the
        constructor runs `resetFirstLoad`, whose latch is closure 0. */
    constructor (context: Context, cookies: Jar)
      ensures Valid() && fresh(processEventsDebounced) && processEventsDebounced.Idle()
      ensures this.context == context && this.cookies == cookies
      ensures LatchOf() == Reset(Latch(false, None, None, []), 0) && serial == 1
      ensures !loading && sending.None? && eventQueue == [] && pageUuid.None?
      ensures wtConfig == InitialConfig() && paramDefaults == Empty
      ensures trace == [] && retiredTimers == 0
    {
      this.context := context;
      this.cookies := cookies;
      loading := false;
      sending := None;
      eventQueue := [];
      pageUuid := None;
      var cfg := InitialConfig();
      wtConfig := cfg;
      paramDefaults := Empty;
      trace := [];
      retiredTimers := 0;
      var st := Reset(Latch(false, None, None, []), 0);
      ResetArms(Latch(false, None, None, []), 0);
      firstLoaded, unsubFirstLoad, unsubFirstLoadCb, listeners := st.firstLoaded, st.unsubFirstLoad, st.unsubFirstLoadCb, st.listeners;
      serial := 1;
      processEventsDebounced := new Debouncer(DebounceOption(cfg, "min", DebounceMinDefault),
                                              DebounceOption(cfg, "max", DebounceMaxDefault));
    }

    /** Writes the first-load fields back. */
    method Store(st: Latch)
      modifies this`firstLoaded, this`unsubFirstLoad, this`unsubFirstLoadCb, this`listeners
      ensures LatchOf() == st
    {
      firstLoaded, unsubFirstLoad, unsubFirstLoadCb, listeners := st.firstLoaded, st.unsubFirstLoad, st.unsubFirstLoadCb, st.listeners;
    }

    /** `resetFirstLoad()`: not loaded again, with a new latch subscribed. */
    method ResetFirstLoad()
      requires Valid()
      modifies this`firstLoaded, this`unsubFirstLoad, this`unsubFirstLoadCb, this`listeners, this`serial
      ensures Valid()
      ensures LatchOf() == Reset(old(LatchOf()), old(serial)) && serial == old(serial) + 1
      ensures !firstLoaded
    {
      ResetArms(LatchOf(), serial);
      Store(Reset(LatchOf(), serial));
      serial := serial + 1;
    }

    /** `afterFirstLoad(cb)`: after the first load `cb` is called at once;
        before it, a wrapper is subscribed to `send:completed`. */
    method AfterFirstLoad(cb: nat)
      requires Valid()
      modifies this`firstLoaded, this`unsubFirstLoad, this`unsubFirstLoadCb, this`listeners, this`serial, this`trace
      ensures Valid()
      ensures LatchOf() == AfterFirstLoadOn(old(LatchOf()), cb, old(serial))
      ensures old(firstLoaded) ==> trace == old(trace) + [CalledNow(cb)] && serial == old(serial)
      ensures !old(firstLoaded) ==> trace == old(trace) && serial == old(serial) + 1
    {
      if firstLoaded {
        trace := trace + [CalledNow(cb)];
      } else {
        RegisterKeepsArmed(LatchOf(), cb, serial);
        Store(AfterFirstLoadOn(LatchOf(), cb, serial));
        serial := serial + 1;
      }
    }

    /** `getUUIDToken()`: the page cookie, created when missing, becomes
        `pageUuid`. */
    method GetUUIDToken(drawn: string) returns (token: string)
      requires Valid() && IsUuidV4(drawn)
      modifies this`pageUuid, this`cookies
      ensures Valid()
      ensures (token, cookies) == FindOrSetCookie(old(cookies), PageUuidKey, drawn)
      ensures pageUuid == Some(token)
    {
      var r := FindOrSetCookie(cookies, PageUuidKey, drawn);
      token, cookies := r.0, r.1;
      pageUuid := Some(token);
    }

    /** `getVisitorToken()`: the `wvt` query parameter, else the visitor
        cookie, created when missing. */
    method GetVisitorToken(drawn: string) returns (token: string)
      requires Valid() && IsUuidV4(drawn)
      modifies this`cookies
      ensures Valid()
      ensures (token, cookies) == WtVisitorToken(context.wvt, old(cookies), drawn)
    {
      var r := WtVisitorToken(context.wvt, cookies, drawn);
      token, cookies := r.0, r.1;
    }

    /** `initialize(config)`: configure, then, when the `cookies` option is
        set, make sure the page cookie exists and resolve the visitor token,
        which creates the visitor cookie only when `wvt` is empty. */
    method Initialize(update: Update<Record>, pageDrawn: string, visitorDrawn: string)
      requires Valid() && IsUuidV4(pageDrawn) && IsUuidV4(visitorDrawn)
      modifies this`wtConfig, this`processEventsDebounced, this`retiredTimers, this`pageUuid, this`cookies
      ensures Valid() && fresh(processEventsDebounced) && processEventsDebounced.Idle()
      ensures wtConfig == Spread(old(wtConfig), ResolveMethod(update, old(wtConfig)))
      ensures retiredTimers == old(retiredTimers) + if old(processEventsDebounced.minTimer).Some? then 1 else 0
      ensures !Truthy(Get(wtConfig, "cookies")) ==> cookies == old(cookies) && pageUuid == old(pageUuid)
      ensures Truthy(Get(wtConfig, "cookies")) ==>
        var page := FindOrSetCookie(old(cookies), PageUuidKey, pageDrawn);
        && pageUuid == Some(page.0)
        && cookies == WtVisitorToken(context.wvt, page.1, visitorDrawn).1
    {
      Config(update);
      SetIdentityCookies(pageDrawn, visitorDrawn);
    }

    /** The end of `initialize`. */
    method SetIdentityCookies(pageDrawn: string, visitorDrawn: string)
      requires Valid() && IsUuidV4(pageDrawn) && IsUuidV4(visitorDrawn)
      modifies this`pageUuid, this`cookies
      ensures Valid()
      ensures !Truthy(Get(wtConfig, "cookies")) ==> cookies == old(cookies) && pageUuid == old(pageUuid)
      ensures Truthy(Get(wtConfig, "cookies")) ==>
        var page := FindOrSetCookie(old(cookies), PageUuidKey, pageDrawn);
        && pageUuid == Some(page.0)
        && cookies == WtVisitorToken(context.wvt, page.1, visitorDrawn).1
    {
      if Truthy(Get(wtConfig, "cookies")) {
        var _ := GetUUIDToken(pageDrawn);
        var _ := GetVisitorToken(visitorDrawn);
      }
    }

    /** `config(update)`: shallow-merge into the configuration and rebuild
        the debouncer; a pending call of the old one is not cancelled. */
    method Config(update: Update<Record>)
      requires Valid()
      modifies this`wtConfig, this`processEventsDebounced, this`retiredTimers
      ensures Valid() && fresh(processEventsDebounced) && processEventsDebounced.Idle()
      ensures wtConfig == Spread(old(wtConfig), ResolveMethod(update, old(wtConfig)))
      ensures retiredTimers == old(retiredTimers) + if old(processEventsDebounced.minTimer).Some? then 1 else 0
    {
      wtConfig := Spread(wtConfig, ResolveMethod(update, wtConfig));
      if processEventsDebounced.minTimer.Some? {
        retiredTimers := retiredTimers + 1;
      }
      processEventsDebounced := new Debouncer(DebounceOption(wtConfig, "min", DebounceMinDefault),
                                              DebounceOption(wtConfig, "max", DebounceMaxDefault));
    }

    /** `set(defaults)`: shallow-merge into the parameter defaults. */
    method Set(update: Update<Record>)
      requires Valid()
      modifies this`paramDefaults
      ensures Valid()
      ensures paramDefaults == Spread(old(paramDefaults), ResolveMethod(update, old(paramDefaults)))
    {
      paramDefaults := Spread(paramDefaults, ResolveMethod(update, paramDefaults));
    }

    /** `clear()`: forget every default. */
    method Clear()
      requires Valid()
      modifies this`paramDefaults
      ensures Valid() && paramDefaults == Empty
    {
      paramDefaults := Empty;
    }

    /** `subscribe(signal, cb)` with a host callback; the result stands for
        the returned unsubscribe function. */
    method Subscribe(signal: string, cb: nat) returns (unsub: Listener)
      requires Valid()
      modifies this`listeners
      ensures Valid()
      ensures listeners == On(old(listeners), signal, Host(cb))
      ensures unsub == Listener(signal, Host(cb))
    {
      AddKeepsArmed(LatchOf(), Listener(signal, Host(cb)));
      listeners := On(listeners, signal, Host(cb));
      unsub := Listener(signal, Host(cb));
    }

    /** Calling a function `subscribe` returned to the host. */
    method Unsubscribe(unsub: Listener)
      requires Valid() && unsub.cb.Host?
      modifies this`listeners
      ensures Valid()
      ensures listeners == RemoveListener(old(listeners), unsub)
    {
      RemoveKeepsArmed(LatchOf(), unsub);
      listeners := RemoveListener(listeners, unsub);
    }

    /** `emitter.emit(signal)`: the callbacks subscribed when it starts run
        in order, the engine's own through the guarded first-load logic.
        Only `send:completed` reaches engine callbacks. */
    method Emit(signal: string)
      requires Valid()
      modifies this`firstLoaded, this`unsubFirstLoad, this`unsubFirstLoadCb, this`listeners, this`trace
      ensures Valid()
      ensures LatchOf() == Deliver(old(LatchOf()), Recipients(old(listeners), signal), true).latch
      ensures signal != SendCompleted ==> LatchOf() == old(LatchOf())
      ensures trace == old(trace) + [Emitted(signal, Recipients(old(listeners), signal))]
    {
      var st := LatchOf();
      var snap := Recipients(listeners, signal);
      ArmedSnapshot(st, signal);
      DeliverKeepsArmed(st, snap, true);
      if signal != SendCompleted {
        DeliverHostsOnly(st, snap, true);
      }
      Store(Deliver(st, snap, true).latch);
      trace := trace + [Emitted(signal, snap)];
    }

    /** `track(kind, payload)` at time `now`: the record goes to the tail
        of the queue and the debouncer is signalled. */
    method Track(kind: string, payload: Record, now: int)
      requires Valid()
      modifies this`eventQueue, processEventsDebounced
      ensures Valid()
      ensures eventQueue == old(eventQueue) + [WtEvent(kind, payload, old(paramDefaults), context, old(pageUuid), now)]
      ensures processEventsDebounced.burst == old(processEventsDebounced.burst) + [()]
    {
      var ev := WtEvent(kind, payload, paramDefaults, context, pageUuid, now);
      Push(ev);
    }

    /** The end of `track`: the record goes to the tail of the queue and
        `signalEventChange()` calls the debounced `processEvents`. */
    method Push(ev: Record)
      requires Valid()
      modifies this`eventQueue, processEventsDebounced
      ensures Valid()
      ensures eventQueue == old(eventQueue) + [ev]
      ensures processEventsDebounced.burst == old(processEventsDebounced.burst) + [()]
    {
      eventQueue := eventQueue + [ev];
      processEventsDebounced.Call(());
    }

    /** What `processEvents` at time `now` does to the state. */
    twostate predicate ProcessedEvents(now: int)
      reads this
    {
      && LatchOf() == old(LatchOf())
      && (old(loading) ==>
            eventQueue == old(eventQueue) && loading && sending == old(sending) && trace == old(trace))
      && (!old(loading) ==>
            && eventQueue == Rest(old(eventQueue))
            && (Head(old(eventQueue)) == [] ==> !loading && sending.None? && trace == old(trace))
            && (Head(old(eventQueue)) != [] ==>
                  && loading
                  && sending == Some(Fetching(SendUrl(wtConfig, context),
                                              Payload(Head(old(eventQueue)), RequestEnv(context, now))))
                  && trace == old(trace) + [Emitted(SendStarted, Recipients(listeners, SendStarted))]))
    }

    /** `processEvents()`: while a delivery is in progress nothing happens;
        otherwise the head batch leaves the queue and, when it is not
        empty, is sent. */
    method ProcessEvents(now: int)
      requires Valid()
      modifies this`eventQueue, this`loading, this`sending, this`trace
      modifies this`firstLoaded, this`unsubFirstLoad, this`unsubFirstLoadCb, this`listeners
      ensures Valid()
      ensures ProcessedEvents(now)
    {
      if loading {
        return;
      }
      var events := Head(eventQueue);
      eventQueue := Rest(eventQueue);
      if |events| > 0 {
        var payload := Payload(events, RequestEnv(context, now));
        loading := true;
        SendToServer(payload);
      }
    }

    /** `sendToServer(payload)`: start the `fetch`, then emit
        `send:started`. */
    method SendToServer(payload: Payload)
      requires Configured() && Armed(LatchOf()) && loading
      modifies this`sending, this`trace
      modifies this`firstLoaded, this`unsubFirstLoad, this`unsubFirstLoadCb, this`listeners
      ensures Valid() && LatchOf() == old(LatchOf())
      ensures sending == Some(Fetching(SendUrl(wtConfig, context), payload))
      ensures trace == old(trace) + [Emitted(SendStarted, Recipients(listeners, SendStarted))]
    {
      sending := Some(Fetching(SendUrl(wtConfig, context), payload));
      Emit(SendStarted);
    }

    /** `flush()`: runs `processEvents` now when a call is pending, without
        cancelling the timers. */
    method Flush(now: int)
      requires Valid()
      modifies this`eventQueue, this`loading, this`sending, this`trace
      modifies this`firstLoaded, this`unsubFirstLoad, this`unsubFirstLoadCb, this`listeners
      ensures Valid()
      ensures processEventsDebounced.burst != [] ==> ProcessedEvents(now)
      ensures processEventsDebounced.burst == [] ==>
        && eventQueue == old(eventQueue) && loading == old(loading)
        && sending == old(sending) && trace == old(trace) && LatchOf() == old(LatchOf())
    {
      var call := processEventsDebounced.Flush();
      if call.Some? {
        ProcessEvents(now);
      }
    }

    /** The quiet-period timer of the debouncer fires. */
    method OnMinTimer(now: int)
      requires Valid() && processEventsDebounced.minTimer.Some?
      modifies this`eventQueue, this`loading, this`sending, this`trace, processEventsDebounced
      modifies this`firstLoaded, this`unsubFirstLoad, this`unsubFirstLoadCb, this`listeners
      ensures Valid() && processEventsDebounced.Idle()
      ensures ProcessedEvents(now)
    {
      var _ := processEventsDebounced.FireMin();
      ProcessEvents(now);
    }

    /** The ceiling timer of the debouncer fires. */
    method OnMaxTimer(now: int)
      requires Valid() && processEventsDebounced.maxTimer.Some?
      modifies this`eventQueue, this`loading, this`sending, this`trace, processEventsDebounced
      modifies this`firstLoaded, this`unsubFirstLoad, this`unsubFirstLoadCb, this`listeners
      ensures Valid() && processEventsDebounced.Idle()
      ensures ProcessedEvents(now)
    {
      var _ := processEventsDebounced.FireMax();
      ProcessEvents(now);
    }

    /** The pending timer of a debouncer `config` replaced fires. */
    method OnRetiredTimer(now: int)
      requires Valid() && retiredTimers > 0
      modifies this`eventQueue, this`loading, this`sending, this`trace, this`retiredTimers
      modifies this`firstLoaded, this`unsubFirstLoad, this`unsubFirstLoadCb, this`listeners
      ensures Valid() && retiredTimers == old(retiredTimers) - 1
      ensures ProcessedEvents(now)
    {
      retiredTimers := retiredTimers - 1;
      ProcessEvents(now);
    }

    /** What `resolve` does: `send:completed` (which loads the engine), then
        `queue:continued` after signalling the debouncer when events are
        waiting, or `queue:completed`; the delivery is over. */
    twostate predicate Resolved()
      reads this, processEventsDebounced
    {
      var snap := Recipients(old(listeners), SendCompleted);
      var next := if eventQueue != [] then QueueContinued else QueueCompleted;
      && !loading && sending.None? && firstLoaded
      && LatchOf() == Deliver(old(LatchOf()), snap, true).latch
      && trace == old(trace) + [Emitted(SendCompleted, snap), Emitted(next, Recipients(listeners, next))]
      && processEventsDebounced.burst
         == old(processEventsDebounced.burst) + if eventQueue != [] then [()] else []
    }

    /** `resolve()` of `processEvents`. */
    method Resolve()
      requires Valid() && loading
      modifies this`loading, this`sending, this`trace, processEventsDebounced
      modifies this`firstLoaded, this`unsubFirstLoad, this`unsubFirstLoadCb, this`listeners
      ensures Valid() && Resolved()
    {
      FirstCompletionLoads(LatchOf(), true);
      Emit(SendCompleted);
      SignalQueueState();
      loading, sending := false, None;
    }

    /** The middle of `resolve`: `queue:continued` after signalling the
        debouncer when events are waiting, `queue:completed` otherwise. */
    method SignalQueueState()
      requires Valid()
      modifies this`trace, processEventsDebounced
      modifies this`firstLoaded, this`unsubFirstLoad, this`unsubFirstLoadCb, this`listeners
      ensures Valid() && LatchOf() == old(LatchOf())
      ensures var next := if eventQueue != [] then QueueContinued else QueueCompleted;
              trace == old(trace) + [Emitted(next, Recipients(listeners, next))]
      ensures processEventsDebounced.burst
              == old(processEventsDebounced.burst) + if eventQueue != [] then [()] else []
    {
      if |eventQueue| > 0 {
        processEventsDebounced.Call(());
        Emit(QueueContinued);
      } else {
        Emit(QueueCompleted);
      }
    }

    /** The `fetch` promise fulfils, whatever the response: `resolve`. */
    method OnFetchFulfilled()
      requires Valid() && sending.Some? && sending.value.Fetching?
      modifies this`loading, this`sending, this`trace, processEventsDebounced
      modifies this`firstLoaded, this`unsubFirstLoad, this`unsubFirstLoadCb, this`listeners
      ensures Valid() && Resolved()
    {
      Resolve();
    }

    /** The `fetch` promise rejects: the pixel is pointed at the fallback
        address, built from the configuration as it is now. */
    method OnFetchRejected()
      requires Valid() && sending.Some? && sending.value.Fetching?
      modifies this`sending
      ensures Valid()
      ensures sending == Some(PixelLoading(FallbackSrc(wtConfig, context), old(sending).value.payload))
    {
      sending := Some(PixelLoading(FallbackSrc(wtConfig, context), sending.value.payload));
    }

    /** The fallback pixel loads: `resolve`. */
    method OnPixelLoad()
      requires Valid() && sending.Some? && sending.value.PixelLoading?
      modifies this`loading, this`sending, this`trace, processEventsDebounced
      modifies this`firstLoaded, this`unsubFirstLoad, this`unsubFirstLoadCb, this`listeners
      ensures Valid() && Resolved()
    {
      Resolve();
    }

    /** The fallback pixel fails: `reject` drops the batch, no signal. */
    method OnPixelError()
      requires Valid() && sending.Some? && sending.value.PixelLoading?
      modifies this`loading, this`sending
      ensures Valid() && !loading && sending.None?
    {
      loading, sending := false, None;
    }
  }
}

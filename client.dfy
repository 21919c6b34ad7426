/** The current engine, class `WT` of src/client.ts. It queues event
    records, sends them in batches of at most `BatchMax` with `fetch`, one
    delivery at a time, and tells subscribers about the delivery through
    the lifecycle signals.

    The host drives it: timers firing (`OnMinTimer`, `OnMaxTimer`,
    `OnRetiredTimer`) and the settling of the pending `fetch`
    (`OnFetchSettled`) are methods, and the clock and the random draws are
    arguments. Host callbacks are known by their identity; what the host
    sees is `trace`: each signal with the subscribers it reached, and each
    call of the `onError` option. */
module Client {
  import opened Js
  import opened Utils
  import opened Debounce
  import opened Signals
  import opened Identity
  import opened Batch
  import opened Host
  import opened ClientEvents

  /** The settling of the `fetch` promise: a response, or a rejection. */
  datatype Outcome = Response(ok: bool, status: int) | Rejected

  /** The error the `.catch` handler receives: the `FailedFetchError`
      thrown for a response that is not ok, or the rejection reason. */
  datatype Cause = FailedFetch(status: int) | FetchRejected

  /** What the host observes. */
  datatype Notice =
    | Emitted(signal: string, reached: seq<Callback>)
    | ErrorReported(handler: nat, payload: Payload, cause: Cause)

  /** A delivery: `fetch(url, { body: JSON.stringify(payload), ... })`. */
  datatype Request = Request(url: string, payload: Payload)

  /** `{ cookieOptions: { expires: EXPIRES_IN_DAYS } }` */
  function InitialConfig(): (cfg: Record)
    ensures Wf(cfg)
  {
    Record(["cookieOptions"],
           map["cookieOptions" := Obj(Record(["expires"], map["expires" := Num(ExpiresInDays)]))])
  }

  /** `getRequestEnvironmentArgs()`: `visitor_token` is the configured
      token as it is, not the resolved one. */
  function RequestEnv(cfg: Record, ctx: Context, now: int): (env: Record)
    ensures Wf(env)
  {
    Record(["visitor_token", "dimensions", "agent", "rts", "wvt"],
           map["visitor_token" := Get(cfg, "visitorToken"), "dimensions" := Dimensions(ctx),
               "agent" := Str(ctx.userAgent), "rts" := Num(now), "wvt" := QueryToken(ctx.wvt)])
  }

  /** The records a `track` call adds to the queue: none when building the
      record threw. */
  function Queued(ev: Option<Record>): (q: seq<Record>)
    ensures ev.None? <==> q == []
    ensures ev.Some? ==> q == [ev.value]
  {
    if ev.Some? then [ev.value] else []
  }

  /** A `track` call queues one record, or none exactly when building it
      throws because the default metadata is `null`; a queued record has
      snake-case keys only and no nil field. */
  lemma TrackQueues(defaults: Record, kp: KindOrParams, ctx: Context, pageUuid: Option<string>, now: int)
    ensures var q := Queued(NewEvent(defaults, TrackParams(kp), ctx, pageUuid, now));
      && |q| <= 1
      && (q == [] <==> Get(defaults, "metadata") == Null)
      && forall t :: |q| == 1 && t in q[0].vals ==> SnakeCase(t) == t && !IsNil(q[0].vals[t])
  {
  }

  class WT {
    var loading: bool
    var wtConfig: Record
    var paramDefaults: Record
    var eventQueue: seq<Record>
    var pageUuid: Option<string>
    const context: Context
    /** `processEventsDebounced`, rebuilt by every `config`. */
    var processEventsDebounced: Debouncer<()>
    /** Replaced debouncers with a pending timer: each still runs
        `processEvents` once when its first timer fires. */
    var retiredTimers: nat
    /** The `EventEmitter`'s listeners. */
    var listeners: seq<Listener>
    var trace: seq<Notice>
    var cookies: Jar
    /** The `fetch` whose promise has not settled yet. */
    var inFlight: Option<Request>

    /** The configuration, the defaults and the debouncer built from the
        configuration's `debounce` options. */
    ghost predicate Configured()
      reads this`wtConfig, this`paramDefaults, this`processEventsDebounced, processEventsDebounced
    {
      && Wf(wtConfig)
      && Wf(paramDefaults)
      && processEventsDebounced.Valid()
      && processEventsDebounced.min == DebounceOption(wtConfig, "min", DebounceMinDefault)
      && processEventsDebounced.maxWait == DebounceOption(wtConfig, "max", DebounceMaxDefault)
    }

    ghost predicate Valid()
      reads this`wtConfig, this`paramDefaults, this`processEventsDebounced, this`inFlight, this`loading
      reads processEventsDebounced
    {
      Configured() && (inFlight.Some? ==> loading)
    }

    /** `new WT(context)` on a page whose cookie jar is `cookies`. */
    constructor (context: Context, cookies: Jar)
      ensures Valid() && fresh(processEventsDebounced)
      ensures this.context == context && this.cookies == cookies
      ensures !loading && inFlight.None? && eventQueue == [] && pageUuid.None?
      ensures wtConfig == InitialConfig() && paramDefaults == Empty
      ensures listeners == [] && trace == [] && retiredTimers == 0
      ensures processEventsDebounced.Idle()
    {
      this.context := context;
      this.cookies := cookies;
      loading := false;
      inFlight := None;
      eventQueue := [];
      pageUuid := None;
      var cfg := InitialConfig();
      wtConfig := cfg;
      paramDefaults := Empty;
      listeners := [];
      trace := [];
      retiredTimers := 0;
      processEventsDebounced := new Debouncer(DebounceOption(cfg, "min", DebounceMinDefault),
                                              DebounceOption(cfg, "max", DebounceMaxDefault));
    }

    /** `getUUIDToken()`: the page cookie, created when missing, becomes
        `pageUuid`. */
    method GetUUIDToken(drawn: string) returns (token: string)
      requires Valid() && IsUuidV4(drawn)
      modifies this`pageUuid, this`cookies
      ensures Valid()
      ensures (token, cookies) == FindOrSetCookie(old(cookies), PageUuidKey, drawn)
      ensures pageUuid == Some(token)
    {
      var r := FindOrSetCookie(cookies, PageUuidKey, drawn);
      token, cookies := r.0, r.1;
      pageUuid := Some(token);
    }

    /** `getVisitorToken()` */
    method GetVisitorToken(drawn: string) returns (token: Value)
      requires Valid() && IsUuidV4(drawn)
      modifies this`cookies
      ensures Valid()
      ensures (token, cookies) == ClientVisitorToken(Get(wtConfig, "visitorToken"), context.wvt, old(cookies), drawn)
    {
      var r := ClientVisitorToken(Get(wtConfig, "visitorToken"), context.wvt, cookies, drawn);
      token, cookies := r.0, r.1;
    }

    /** `initialize(config)`: configure, then, when cookies are enabled,
        make sure the page cookie exists and resolve the visitor token,
        which creates the visitor cookie only when neither a configured
        token nor a non-empty `wvt` supplies it. */
    method Initialize(update: Update<Record>, pageDrawn: string, visitorDrawn: string)
      requires Valid() && IsUuidV4(pageDrawn) && IsUuidV4(visitorDrawn)
      modifies this`wtConfig, this`processEventsDebounced, this`retiredTimers, this`pageUuid, this`cookies
      ensures Valid() && fresh(processEventsDebounced) && processEventsDebounced.Idle()
      ensures wtConfig == Spread(old(wtConfig), ResolveMethod(update, old(wtConfig)))
      ensures retiredTimers == old(retiredTimers) + if old(processEventsDebounced.minTimer).Some? then 1 else 0
      ensures !Truthy(Get(wtConfig, "cookieOptions")) ==> cookies == old(cookies) && pageUuid == old(pageUuid)
      ensures Truthy(Get(wtConfig, "cookieOptions")) ==>
        var page := FindOrSetCookie(old(cookies), PageUuidKey, pageDrawn);
        && pageUuid == Some(page.0)
        && cookies == ClientVisitorToken(Get(wtConfig, "visitorToken"), context.wvt, page.1, visitorDrawn).1
    {
      Config(update);
      SetIdentityCookies(pageDrawn, visitorDrawn);
    }

    /** The end of `initialize`: with cookies enabled, the page cookie is
        made to exist and the visitor token is resolved through the `||`
        chain, whose last link alone writes the visitor cookie. */
    method SetIdentityCookies(pageDrawn: string, visitorDrawn: string)
      requires Valid() && IsUuidV4(pageDrawn) && IsUuidV4(visitorDrawn)
      modifies this`pageUuid, this`cookies
      ensures Valid()
      ensures !Truthy(Get(wtConfig, "cookieOptions")) ==> cookies == old(cookies) && pageUuid == old(pageUuid)
      ensures Truthy(Get(wtConfig, "cookieOptions")) ==>
        var page := FindOrSetCookie(old(cookies), PageUuidKey, pageDrawn);
        && pageUuid == Some(page.0)
        && cookies == ClientVisitorToken(Get(wtConfig, "visitorToken"), context.wvt, page.1, visitorDrawn).1
    {
      if Truthy(Get(wtConfig, "cookieOptions")) {
        var _ := GetUUIDToken(pageDrawn);
        var _ := GetVisitorToken(visitorDrawn);
      }
    }

    /** `config(update)`: shallow-merge into the configuration (the
        update's keys win) and rebuild the debouncer from the new
        `debounce` options. A pending call of the old debouncer is not
        cancelled. */
    method Config(update: Update<Record>)
      requires Valid()
      modifies this`wtConfig, this`processEventsDebounced, this`retiredTimers
      ensures Valid() && fresh(processEventsDebounced) && processEventsDebounced.Idle()
      ensures wtConfig == Spread(old(wtConfig), ResolveMethod(update, old(wtConfig)))
      ensures retiredTimers == old(retiredTimers) + if old(processEventsDebounced.minTimer).Some? then 1 else 0
    {
      wtConfig := Spread(wtConfig, ResolveMethod(update, wtConfig));
      if processEventsDebounced.minTimer.Some? {
        retiredTimers := retiredTimers + 1;
      }
      processEventsDebounced := new Debouncer(DebounceOption(wtConfig, "min", DebounceMinDefault),
                                              DebounceOption(wtConfig, "max", DebounceMaxDefault));
    }

    /** `set(defaults)`: shallow-merge into the parameter defaults. */
    method Set(update: Update<Record>)
      requires Valid()
      modifies this`paramDefaults
      ensures Valid()
      ensures paramDefaults == Spread(old(paramDefaults), ResolveMethod(update, old(paramDefaults)))
    {
      paramDefaults := Spread(paramDefaults, ResolveMethod(update, paramDefaults));
    }

    /** `clear()`: forget every default. */
    method Clear()
      requires Valid()
      modifies this`paramDefaults
      ensures Valid() && paramDefaults == Empty
    {
      paramDefaults := Empty;
    }

    /** `subscribe(signal, cb)`; the result stands for the returned
        unsubscribe function. */
    method Subscribe(signal: string, cb: nat) returns (unsub: Listener)
      modifies this`listeners
      ensures listeners == On(old(listeners), signal, Host(cb))
      ensures unsub == Listener(signal, Host(cb))
    {
      listeners := On(listeners, signal, Host(cb));
      unsub := Listener(signal, Host(cb));
    }

    /** Calling the function `subscribe` returned. */
    method Unsubscribe(unsub: Listener)
      modifies this`listeners
      ensures listeners == RemoveListener(old(listeners), unsub)
    {
      listeners := RemoveListener(listeners, unsub);
    }

    /** `emitter.emit(signal)`: every current subscriber of the signal is
        called, in subscription order. */
    method Emit(signal: string)
      modifies this`trace
      ensures trace == old(trace) + [Emitted(signal, Recipients(listeners, signal))]
    {
      trace := trace + [Emitted(signal, Recipients(listeners, signal))];
    }

    /** `track(kindOrParams)` at time `now`: the record `addToQueue` builds
        is queued. `threw` is the `TypeError` of a `null` default metadata,
        in which case nothing changes. */
    method Track(kp: KindOrParams, now: int) returns (threw: bool)
      requires Valid()
      modifies this`eventQueue, processEventsDebounced
      ensures Valid()
      ensures threw <==> Get(old(paramDefaults), "metadata") == Null
      ensures eventQueue == old(eventQueue) + Queued(NewEvent(old(paramDefaults), TrackParams(kp), context, old(pageUuid), now))
      ensures processEventsDebounced.burst == old(processEventsDebounced.burst) + if threw then [] else [()]
    {
      var ev := NewEvent(paramDefaults, TrackParams(kp), context, pageUuid, now);
      threw := ev.None?;
      if !threw {
        AddToQueue(ev.value);
      }
    }

    /** The end of `addToQueue`: the record goes to the tail of the queue
        and the debouncer is signalled. */
    method AddToQueue(ev: Record)
      requires Valid()
      modifies this`eventQueue, processEventsDebounced
      ensures Valid()
      ensures eventQueue == old(eventQueue) + [ev]
      ensures processEventsDebounced.burst == old(processEventsDebounced.burst) + [()]
      ensures processEventsDebounced.minTimer == Some(())
    {
      eventQueue := eventQueue + [ev];
      processEventsDebounced.Call(());
    }

    /** What `processEvents` at time `now` does to the state. */
    twostate predicate ProcessedEvents(now: int)
      reads this
    {
      if old(loading) then
        && eventQueue == old(eventQueue) && loading
        && inFlight == old(inFlight) && trace == old(trace)
      else
        && eventQueue == Rest(old(eventQueue))
        && (Head(old(eventQueue)) == [] ==>
              !loading && inFlight == old(inFlight) && trace == old(trace))
        && (Head(old(eventQueue)) != [] ==>
              && loading
              && inFlight == Some(Request(SendUrl(wtConfig, context),
                                          Payload(Head(old(eventQueue)), RequestEnv(wtConfig, context, now))))
              && trace == old(trace) + [Emitted(SendStarted, Recipients(listeners, SendStarted))])
    }

    /** `processEvents()`: while a delivery is pending nothing happens;
        otherwise the head batch leaves the queue and, when it is not
        empty, is sent and `send:started` is emitted. */
    method ProcessEvents(now: int)
      requires Valid()
      modifies this`eventQueue, this`loading, this`inFlight, this`trace
      ensures Valid()
      ensures ProcessedEvents(now)
    {
      if loading {
        return;
      }
      var events := Head(eventQueue);
      eventQueue := Rest(eventQueue);
      if |events| > 0 {
        SendToServer(events, now);
      }
    }

    /** `sendToServer(events)`: mark the delivery pending, start the
        `fetch` and emit `send:started`. */
    method SendToServer(events: seq<Record>, now: int)
      requires Valid()
      modifies this`loading, this`inFlight, this`trace
      ensures Valid() && loading
      ensures inFlight == Some(Request(SendUrl(wtConfig, context), Payload(events, RequestEnv(wtConfig, context, now))))
      ensures trace == old(trace) + [Emitted(SendStarted, Recipients(listeners, SendStarted))]
    {
      loading := true;
      inFlight := Some(Request(SendUrl(wtConfig, context), Payload(events, RequestEnv(wtConfig, context, now))));
      Emit(SendStarted);
    }

    /** `flush()`: runs `processEvents` now when a call is pending, without
        cancelling the timers. */
    method Flush(now: int)
      requires Valid()
      modifies this`eventQueue, this`loading, this`inFlight, this`trace
      ensures Valid()
      ensures processEventsDebounced.burst != [] ==> ProcessedEvents(now)
      ensures processEventsDebounced.burst == [] ==>
        eventQueue == old(eventQueue) && loading == old(loading)
        && inFlight == old(inFlight) && trace == old(trace)
    {
      var call := processEventsDebounced.Flush();
      if call.Some? {
        ProcessEvents(now);
      }
    }

    /** The quiet-period timer of the debouncer fires. */
    method OnMinTimer(now: int)
      requires Valid() && processEventsDebounced.minTimer.Some?
      modifies this`eventQueue, this`loading, this`inFlight, this`trace, processEventsDebounced
      ensures Valid() && processEventsDebounced.Idle()
      ensures ProcessedEvents(now)
    {
      var _ := processEventsDebounced.FireMin();
      ProcessEvents(now);
    }

    /** The ceiling timer of the debouncer fires. */
    method OnMaxTimer(now: int)
      requires Valid() && processEventsDebounced.maxTimer.Some?
      modifies this`eventQueue, this`loading, this`inFlight, this`trace, processEventsDebounced
      ensures Valid() && processEventsDebounced.Idle()
      ensures ProcessedEvents(now)
    {
      var _ := processEventsDebounced.FireMax();
      ProcessEvents(now);
    }

    /** The pending timer of a debouncer `config` replaced fires. */
    method OnRetiredTimer(now: int)
      requires Valid() && retiredTimers > 0
      modifies this`eventQueue, this`loading, this`inFlight, this`trace, this`retiredTimers
      ensures Valid() && retiredTimers == old(retiredTimers) - 1
      ensures ProcessedEvents(now)
    {
      retiredTimers := retiredTimers - 1;
      ProcessEvents(now);
    }

    /** The pending `fetch` settles. An ok response runs `resolve`:
        `send:completed`, then `queue:continued` after signalling the
        debouncer when events are waiting, or `queue:completed`. Anything
        else reaches `.catch`: the `onError` option is called when it is a
        function and the batch is dropped. Only an `onError` that is set
        but not callable throws inside `.catch`, so `reject` never runs and
        `loading` stays set. */
    method OnFetchSettled(outcome: Outcome)
      requires Valid() && inFlight.Some?
      modifies this`loading, this`inFlight, this`trace, processEventsDebounced
      ensures Valid() && inFlight.None?
      ensures outcome.Response? && outcome.ok ==>
        && !loading
        && (eventQueue != [] ==>
              && trace == old(trace) + [Emitted(SendCompleted, Recipients(listeners, SendCompleted)),
                                        Emitted(QueueContinued, Recipients(listeners, QueueContinued))]
              && processEventsDebounced.burst == old(processEventsDebounced.burst) + [()])
        && (eventQueue == [] ==>
              && trace == old(trace) + [Emitted(SendCompleted, Recipients(listeners, SendCompleted)),
                                        Emitted(QueueCompleted, Recipients(listeners, QueueCompleted))]
              && processEventsDebounced.burst == old(processEventsDebounced.burst))
      ensures !(outcome.Response? && outcome.ok) ==>
        var cause := if outcome.Response? then FailedFetch(outcome.status) else FetchRejected;
        var onError := Get(wtConfig, "onError");
        && processEventsDebounced.burst == old(processEventsDebounced.burst)
        && (onError.Func? ==>
              !loading && trace == old(trace) + [ErrorReported(onError.id, old(inFlight).value.payload, cause)])
        && (IsNil(onError) ==> !loading && trace == old(trace))
        && (!onError.Func? && !IsNil(onError) ==> loading && trace == old(trace))
    {
      var payload := inFlight.value.payload;
      inFlight := None;
      if outcome.Response? && outcome.ok {
        Emit(SendCompleted);
        if |eventQueue| > 0 {
          processEventsDebounced.Call(());
          Emit(QueueContinued);
        } else {
          Emit(QueueCompleted);
        }
        loading := false;
      } else {
        var cause := if outcome.Response? then FailedFetch(outcome.status) else FetchRejected;
        var onError := Get(wtConfig, "onError");
        if onError.Func? {
          trace := trace + [ErrorReported(onError.id, payload, cause)];
          loading := false;
        } else if IsNil(onError) {
          loading := false;
        }
      }
    }
  }
}

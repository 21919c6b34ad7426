# wt-client event engine, modelled in Dafny

The browser tracking client queues the events a page reports (`track`,
or `handleEvent` in the oldest engine). It builds one normalised record
per event from the call's parameters, the page defaults set with `set`,
the page environment and the clock. Records are sent in batches of at
most 100, one delivery at a time, driven by a debouncer (500 ms quiet
period, 1500 ms ceiling unless configured). Subscribers hear four
lifecycle signals: `send:started`, `send:completed`, `queue:continued`
and `queue:completed`. A visitor token and a page token are kept in
cookies.

The repository holds three versions of the engine, each modelled as a
Dafny class whose fields are the engine's fields:

- `Client.WT` models `src/client.ts`, the current engine. It posts JSON
  with `fetch`, reports failures to `onError` and snake-cases the keys of
  every record.
- `Wt.WT` models `src/wt.ts`, the previous engine. It posts form data
  with `fetch` and falls back to a tracking pixel when the request
  fails. It keeps the first-load latch (`resetFirstLoad` /
  `afterFirstLoad`).
- `Index.WT` models `src/index.js`, the oldest engine. It sends by pixel
  only and updates its configuration and defaults in place with
  `assign`. Its latch calls the stored unsubscribe functions without a
  guard. Its `withContext` runner dispatches commands by member name.

Shared parts are modules of their own:

- `Js`: JavaScript values and ordered plain objects.
- `Utils`: `omitBy`/`isNil`, `snakeCaseKeys`, the `uuid` template and
  `resolveMethod`.
- `Assign`: the in-place `assign` loop.
- `Debounce`: the debouncer, as a class whose timers are explicit.
- `Signals`: the `EventEmitter` registry.
- `FirstLoad`: the first-load latch, as functions over the latch fields
  and the listeners.
- `Identity`: the cookie jar and token lookup.
- `Batch`: the batch cut.
- `Host`: the page context and the tracker address.
- `ClientEvents` and `LegacyEvent`: the event records of the current
  engine and of the two earlier ones.

The host drives each engine through methods. Debouncer timers fire
through `OnMinTimer`, `OnMaxTimer` and `OnRetiredTimer`. A transfer
settles through `OnFetchSettled`, `OnFetchFulfilled`, `OnFetchRejected`,
`OnPixelLoad` and `OnPixelError`. The clock (`now`) and the random uuid
(`drawn`) are arguments. Host callbacks are known by identity. What the
host observes of them is the `trace` field: each emitted signal with the
callbacks it reached.

## Model

| member | source | states |
|---|---|---|
| Js.Put | src/utils.js:8 | a property write: the key takes the value, an existing key keeps its place in key order, a new key goes last (integer-like keys aside, see Left out) |
| Js.Spread | src/client.ts:187-190 | `{...a, ...b}` has the keys of both; `b` wins on a shared key and `a`'s key order is kept |
| Js.LiteralValue | src/wt.ts:318-332 | in an object literal, an entry no later entry overrides gives its key its value |
| Utils.OmitBy | src/utils.ts:53-70 | exactly the keys whose value the predicate rejects are removed; the kept keys keep their values |
| Utils.OmitFromContents | src/utils.ts:61-69 | the reduce step by step: the memo gains exactly the kept keys, with their values, and keeps the rest |
| Utils.OmitByKeepsOrder | src/utils.ts:61-70 | the kept keys stay in the object's order |
| Utils.OmitFromOrder | src/utils.ts:61-69 | the reduce appends the kept keys in order after those already in the memo |
| Utils.OmitNil | src/utils.ts:50 | `omitBy(obj, isNil)` keeps exactly the keys whose value is neither `null` nor `undefined` |
| Utils.SplitCamelMarksEveryBoundary | src/utils.ts:86 | the non-overlapping left-to-right `replace` equals the reference "underscore after each lower-upper boundary" definition |
| Utils.SnakeCase | src/utils.ts:86 | a converted key has no upper-case letter |
| Utils.SnakeCaseIdempotent | src/utils.ts:86 | converting a converted key changes nothing |
| Utils.SnakeCaseKeys | src/utils.ts:84-88 | the result's keys are exactly the converted keys and are all in snake case |
| Utils.SnakeCaseKeysLastWins | src/utils.ts:85-87 | when several keys convert to the same name, the last one in key order gives the value |
| Utils.SnakeCaseKeysIdempotent | src/utils.ts:84-88 | applying `snakeCaseKeys` twice is the same as applying it once |
| Utils.HexDigit | src/utils.ts:80 | `value.toString(16)` of a nibble is a lower-case hex digit |
| Utils.VariantNibble | src/utils.ts:77 | `(seed & 0x3) \| 0x8` lies in 8..11 |
| Utils.FillTemplate | src/utils.ts:74-81 | every `x` becomes a hex digit, every `y` a variant digit, and every other character is kept |
| Utils.TemplateDraws | src/utils.ts:74 | the template has 31 random positions |
| Utils.UuidIsV4 | src/utils.ts:73-81 | every draw yields a version-4 UUID: 36 characters, dashes at 8, 13, 18 and 23, `4` at 14, one of `89ab` at 19, hex elsewhere |
| Utils.ResolvePlainIsConstant | src/client.ts:17-19 | only a function argument reads the current value: a plain argument resolves to itself whatever the state, exactly as the constant function would |
| Assign.AssignAll | src/utils.js:3-12 | the target's keys are all kept, in order |
| Assign.AssignAllUntouched | src/utils.js:5-10 | a key no source has keeps the target's value, or stays absent |
| Assign.AssignAllLastWins | src/utils.js:5-10 | a key takes the value of the last source that has it |
| Assign.AssignAllKeys | src/utils.js:3-12 | the result has exactly the keys of the target and of the sources |
| Assign.Assign | src/utils.js:3-12 | the loop leaves in the same target object what `AssignAll` specifies and returns that object |
| Debounce.Debouncer.constructor | src/utils.ts:6-14 | a new debouncer has no timer, no flush function and is not active |
| Debounce.Debouncer.Call | src/utils.ts:29-37 | re-arms the quiet timer with the latest arguments; arms the ceiling timer only at the start of a burst when `maxWait` is truthy; the flush function takes the latest arguments |
| Debounce.Debouncer.Clear | src/utils.ts:16-21 | cancels both timers, the flush function and the burst |
| Debounce.Debouncer.FireMin | src/utils.ts:23-26 | the quiet timer runs with the burst's LAST arguments and clears everything first |
| Debounce.Debouncer.FireMax | src/utils.ts:23-33 | the ceiling timer runs with the burst's FIRST arguments and clears everything first |
| Debounce.Debouncer.Flush | src/utils.ts:40-45 | a call is due exactly when a burst is pending, with the latest arguments; the timers are NOT cancelled |
| Signals.OnReachesLast | src/client.ts:201-202 | after `on(event, cb)` the next `emit(event)` reaches the earlier recipients in their order and then `cb`, one time more than before |
| Signals.UnsubscribeUndoesSubscribe | src/client.ts:201-206 | the returned unsubscribe function undoes exactly its own subscription |
| Signals.RemoveListenerTakesOne | src/client.ts:203-205 | `removeListener` takes out one occurrence and nothing else, and changes nothing when the listener is absent |
| Signals.RemoveListenerKeepsOtherSignals | src/client.ts:203-205 | removing a listener changes no other signal's recipients |
| Signals.OnKeepsOtherSignals | src/client.ts:201-202 | subscribing changes no other signal's recipients |
| Signals.RecipientsCount | src/client.ts:307 | `emit` calls a callback as often as it is registered for that signal |
| Signals.RemoveListenerCount | src/client.ts:203-205 | removing a listener changes the count of that listener only |
| Batch.CutSplitsQueue | src/client.ts:298-302 | the batch followed by what stays is the whole queue; the batch holds at most 100 events and is empty only for an empty queue |
| Batch.DrainDeliversInOrder | src/client.ts:298-311 | repeated cuts deliver every event once, in enqueue order, in full batches of 100 except the last |
| Host.PageUuidValue | src/client.ts:289 | `page_uuid` is nil exactly when no page token is known |
| LegacyEvent.EnvironmentAsEarlierEngines | src/client.ts:285-291 | the current engine's environment object is `url`, `referrer` and `page_uuid`, in that order, with the same values the earlier engines write inline into their records |
| Host.DebounceConfigured | src/client.ts:324-331 | after `config({debounce: d})` each wait is `d`'s field when `d` sets it, and the default (500, or 1500 for `max`) when the field is nil, whatever was configured before |
| Host.ConfigString | src/wt.ts:201-202 | a configuration entry counts only when it is a non-empty string |
| Host.TrackerAddress | src/wt.ts:200-212 | the root is `trackerDomain` when set, otherwise `//` and the page's host; the pixel is `trackerUrl` when set, otherwise `/track.gif` under the root, whether or not a domain is set |
| Identity.FindOrSetCookie | src/client.ts:29-36 | a non-empty cookie is returned unchanged; otherwise the drawn uuid is stored under the key and returned |
| Identity.FindOrSetCookieStable | src/client.ts:29-36 | once set, asking again returns the same token and leaves the jar alone, whatever the next draw |
| Identity.PeekOrMint | src/index.js:35-41 | the oldest page-token lookup returns what `findOrSetCookie` would, but stores nothing |
| Identity.ClientVisitorTokenIsOrChain | src/client.ts:153-161 | the visitor token is the `\|\|` chain of the configured token, the `wvt` query parameter and the cookie; the cookie is created only when both earlier sources are falsy |
| Identity.ClientVisitorTokenStable | src/client.ts:41-44 | resolving the visitor token twice gives the same token |
| Identity.WtVisitorToken | src/wt.ts:45-50 | the `wvt` query parameter when non-empty, otherwise the visitor cookie, created when missing |
| Identity.WtAgreesWithClientUnconfigured | src/wt.ts:45-50 | without a configured token the previous engine resolves exactly as the current one |
| FirstLoad.Reset | src/wt.ts:149-162 | `resetFirstLoad` clears `firstLoaded`, stores the unsubscribe of a new latch, and that latch is subscribed |
| FirstLoad.AfterFirstLoadOn | src/wt.ts:164-174 | after the first load nothing changes (the callback runs at once); before it, a wrapper is appended and its unsubscribe stored, replacing the previous one |
| FirstLoad.Deliver | src/wt.ts:157-172 | an `emit` reaches at most the whole snapshot; without a throw it reaches all of it; the guarded `?.()` engine never throws |
| FirstLoad.ResetArms | src/wt.ts:149-162 | `resetFirstLoad` leaves exactly one latch, subscribed once, and not loaded |
| FirstLoad.AddKeepsArmed | src/wt.ts:366-371 | a subscription that is not a latch keeps the latch invariant |
| FirstLoad.RegisterKeepsArmed | src/wt.ts:164-174 | `afterFirstLoad` keeps the latch invariant |
| FirstLoad.RemoveKeepsArmed | src/wt.ts:368-370 | unsubscribing a host callback keeps the latch invariant |
| FirstLoad.ArmedSnapshot | src/wt.ts:157-161 | the latch appears in a snapshot at most once, and only for `send:completed`; other signals reach host callbacks only |
| FirstLoad.DeliverHostsOnly | src/wt.ts:366-371 | host callbacks leave the engine state alone |
| FirstLoad.DeliverKeepsArmed | src/wt.ts:157-172 | every `emit` keeps the latch invariant |
| FirstLoad.StepKeepsArmed | src/wt.ts:157-172 | one callback of the snapshot keeps the invariant and leaves the rest of the snapshot consistent |
| FirstLoad.LatchStepKeepsArmed | src/wt.ts:157-161 | the latch unsubscribes itself and no other latch remains in the registry or the snapshot |
| FirstLoad.SnapshotHasOneLatch | src/wt.ts:157-161 | a snapshot that starts with the latch holds no second latch |
| FirstLoad.DeliverOpensLatch | src/wt.ts:157-161 | reaching a latch sets `firstLoaded`, and nothing clears it again |
| FirstLoad.FirstCompletionLoads | src/wt.ts:285 | the first `send:completed` of an armed engine sets `firstLoaded` unless a callback throws first |
| FirstLoad.LoneWrapperLeaves | src/wt.ts:168-172 | a lone wrapper whose unsubscribe is stored runs once and leaves no wrapper behind |
| FirstLoad.OneWrapperRunsOnce | src/wt.ts:164-174 | one `afterFirstLoad` before the first load: the next `send:completed` calls it exactly once and no later one does |
| FirstLoad.TwoWaitingListeners | src/wt.ts:164-174 | two `afterFirstLoad` calls before the first load register latch, wrapper a, wrapper b, in that order |
| FirstLoad.TwoWaitingRegistry | src/wt.ts:168-172 | the latch then wrapper a each remove a listener, and wrapper a removes wrapper b, not itself |
| FirstLoad.TwoWaitingLeaveFirstWrapper | src/wt.ts:168-172 | in the previous engine, two waiting callbacks leave the first wrapper subscribed for good |
| FirstLoad.TwoWaitingThrow | src/index.js:77-81 | in the oldest engine the second wrapper calls a forgotten unsubscribe and throws out of `emit`, after all three callbacks |
| ClientEvents.TrackParams | src/client.ts:168-176 | a kind string becomes `{kind}`; a parameter object keeps its keys, and a nil `kind` becomes `"event"` |
| ClientEvents.Without | src/client.ts:209 | the rest of a destructuring has every other own key with its value |
| ClientEvents.DefaultMetadata | src/client.ts:211-212 | a `null` default metadata throws; `undefined` or a non-object spreads as `{}` |
| ClientEvents.SpreadValue | src/client.ts:214 | `{...acc, ...v}` has `acc`'s keys, in order, and, when `v` is an object, `v`'s keys with `v`'s values; spreading a non-object adds nothing |
| ClientEvents.EventMetadata | src/client.ts:214 | the call's metadata keys override the defaults' |
| ClientEvents.TopParams | src/client.ts:209-220 | the call's parameters override the defaults; `metadata` is handled apart |
| ClientEvents.NewEvent | src/client.ts:208-227 | a record is pushed unless the defaults' metadata is `null`; every key is snake case and no value is nil |
| ClientEvents.MergedFields | src/client.ts:218-224 | in the merged literal the environment and the clock win over any same-named parameter |
| ClientEvents.MergedReserved | src/client.ts:221-223 | the five fields written after the parameters hold what was written |
| ClientEvents.MergedParams | src/client.ts:219-220 | any other key comes from the parameters, the call's winning over the defaults |
| ClientEvents.EnvSpread | src/client.ts:222 | spreading the environment writes `url`, `referrer` and `page_uuid` over the record |
| ClientEvents.NormalizeAt | src/client.ts:217-226 | a key that no later key converts onto reaches the record under its converted name with its value, unless the value is nil |
| ClientEvents.EventLastWins | src/client.ts:216-227 | for any keys, colliding ones included: each field of the queued record holds the value of the last key of the merged literal that converts to its name, and is absent when that value is nil |
| ClientEvents.EventAt | src/client.ts:216-227 | a key of the merged literal that no other default, call or reserved key converts onto reaches the queued record snake-cased with its value, unless nil |
| ClientEvents.EventField | src/client.ts:218-225 | for a key no other key converts onto, the top-level field is the call's value, else the default's, and is absent when nil |
| ClientEvents.MergedIsSnakeDistinct | src/client.ts:218-224 | the keys of the merged literal stay apart once converted (for inputs whose keys do) |
| ClientEvents.EventKind | src/client.ts:168-176 | when no other key converts to `kind`: `track("s")` queues `kind: "s"`; a parameter object without a kind queues `kind: "event"` |
| ClientEvents.EventKindOf | src/client.ts:216-227 | when no other key converts to `kind`, a non-nil `kind` parameter reaches the queued record unchanged |
| ClientEvents.EventMetadataField | src/client.ts:214-221 | when no other key converts to `metadata`, the queued `metadata` is the merged metadata when it has a key, and absent otherwise |
| ClientEvents.EventEnvironment | src/client.ts:222-223 | when no parameter converts onto `url`, `referrer`, `page_uuid` or `ts` (other collisions allowed), those come from the page and the clock, `page_uuid` only when known |
| ClientEvents.EventEnvAt | src/client.ts:222-223 | one environment field of the queued record, when no parameter converts onto its name |
| LegacyEvent.RestArgs | src/wt.ts:304-315 | `...args` holds the payload's keys other than the nine lifted ones |
| LegacyEvent.EventAt | src/wt.ts:316-335 | field `j` of the literal is in the record exactly when its value is not nil, and then with that value |
| LegacyEvent.LiftedField | src/wt.ts:319-328 | lifted parameter `i` is written under its snake-case field |
| LegacyEvent.EventLifted | src/wt.ts:319-328 | each lifted parameter becomes its field when not nil and is absent otherwise |
| LegacyEvent.EventKind | src/wt.ts:319 | `kind` is present exactly when it is not nil |
| LegacyEvent.EventMetadata | src/wt.ts:329 | `metadata` is always present, even when empty |
| LegacyEvent.EventUrl | src/wt.ts:265 | `url` is the page address and always present |
| LegacyEvent.EventReferrer | src/wt.ts:266 | `referrer` is the page referrer and always present |
| LegacyEvent.EventPageUuid | src/wt.ts:267 | `page_uuid` is present exactly when a page token is known |
| LegacyEvent.EventTs | src/wt.ts:331 | `ts` is the time of the call and always present |
| LegacyEvent.EventKeys | src/wt.ts:316-335 | the record has no other field: extra parameters go only into `metadata` |
| LegacyEvent.WtMetadata | src/wt.ts:329 | the previous engine's metadata: the call's extra parameters override the defaults |
| LegacyEvent.IndexMetadata | src/index.js:216 | the oldest engine's metadata is well formed |
| LegacyEvent.IndexMetadataDefaultsWin | src/index.js:216 | the oldest engine's metadata: the defaults override the call's extra parameters |
| LegacyEvent.PrecedenceReversed | src/index.js:216 | the same payload and defaults sharing a key give opposite values in the two earlier engines |
| Client.InitialConfig | src/client.ts:131-133 | the initial configuration is `{cookieOptions: {expires: 7300}}` |
| Client.RequestEnv | src/client.ts:270-283 | the request environment is well formed |
| Client.TrackQueues | src/client.ts:208-228 | a `track` call queues at most one record, none exactly when the default metadata is `null` (the destructuring throws); a queued record has snake-case keys and no nil field |
| Client.WT.constructor | src/client.ts:127-143 | a new engine: empty queue, not loading, initial configuration, idle default debouncer |
| Client.WT.GetUUIDToken | src/client.ts:163-166 | the page cookie, created when missing, becomes `pageUuid` |
| Client.WT.GetVisitorToken | src/client.ts:153-161 | the configured token, else `wvt`, else the visitor cookie, created when missing |
| Client.WT.Initialize | src/client.ts:145-151 | configures as `config` does; with `cookieOptions` set, the page cookie exists afterwards, and the visitor cookie is created only when neither a configured `visitorToken` nor a non-empty `wvt` supplies the token |
| Client.WT.SetIdentityCookies | src/client.ts:147-150 | with `cookieOptions` set, the page cookie exists and `pageUuid` is its token, and the visitor cookie is created only when neither a configured `visitorToken` nor a non-empty `wvt` supplies the token; otherwise nothing changes |
| Client.WT.Config | src/client.ts:193-199 | the update is spread over the configuration and a new debouncer is built from it; a pending timer of the old one is kept, to fire once |
| Client.WT.Set | src/client.ts:186-191 | the update is spread over the defaults |
| Client.WT.Clear | src/client.ts:182-184 | the defaults become empty |
| Client.WT.Subscribe | src/client.ts:201-206 | the callback is appended to the listeners |
| Client.WT.Unsubscribe | src/client.ts:203-205 | the unsubscribe removes that listener |
| Client.WT.Emit | src/client.ts:307-313 | every current subscriber of the signal is reached, in order |
| Client.WT.Track | src/client.ts:168-176 | the queue grows by exactly the record `addToQueue` builds, or not at all when it throws; the debouncer is called once unless it throws |
| Client.WT.AddToQueue | src/client.ts:216-228 | the record goes to the tail and the debouncer is called |
| Client.WT.ProcessEvents | src/client.ts:293-323 | while loading nothing changes; otherwise the head batch leaves the queue and, when not empty, is posted with `send:started` emitted |
| Client.WT.SendToServer | src/client.ts:238-268 | the batch is posted to `${getRoot()}/wt/t` with the request environment, and `send:started` is emitted |
| Client.WT.Flush | src/client.ts:178-180 | with a call pending, `processEvents` runs now; otherwise nothing changes |
| Client.WT.OnMinTimer | src/client.ts:325-333 | the quiet timer runs `processEvents` and leaves the debouncer idle |
| Client.WT.OnMaxTimer | src/client.ts:325-333 | the ceiling timer runs `processEvents` and leaves the debouncer idle |
| Client.WT.OnRetiredTimer | src/client.ts:325-333 | a timer of a replaced debouncer still runs `processEvents` once |
| Client.WT.OnFetchSettled | src/client.ts:255-266 | an ok response resolves: `send:completed`, then `queue:continued` (re-arming the debouncer) or `queue:completed`, and `loading` cleared; on a failure `onError` is called when it is a function and `loading` is cleared; with no `onError`, `loading` is just cleared; an `onError` that is set but not callable throws inside the `.catch`, so nothing is reported and `loading` stays set for good; the batch is never re-queued |
| Wt.InitialConfig | src/wt.ts:131-133 | the initial configuration is `{cookies: {expires: 7300}}` |
| Wt.RequestEnv | src/wt.ts:249-261 | the request environment is well formed |
| Wt.WT.constructor | src/wt.ts:143-147 | a new engine: one latch subscribed, not loaded, empty queue, idle default debouncer |
| Wt.WT.ResetFirstLoad | src/wt.ts:149-162 | the latch state becomes `Reset` of the old one and the engine stays armed |
| Wt.WT.AfterFirstLoad | src/wt.ts:164-174 | after the first load the callback is called at once; before it a wrapper is registered |
| Wt.WT.GetUUIDToken | src/wt.ts:191-194 | the page cookie, created when missing, becomes `pageUuid` |
| Wt.WT.GetVisitorToken | src/wt.ts:184-189 | `wvt` when non-empty, else the visitor cookie, created when missing |
| Wt.WT.Initialize | src/wt.ts:176-182 | configures as `config` does; with `cookies` set, the page cookie exists afterwards, and the visitor cookie is created only when `wvt` is empty |
| Wt.WT.SetIdentityCookies | src/wt.ts:178-181 | with `cookies` set, the page cookie exists and `pageUuid` is its token, and the visitor cookie is created only when `wvt` is empty; otherwise nothing changes |
| Wt.WT.Config | src/wt.ts:358-364 | the update is spread over the configuration and a new debouncer is built; a pending timer of the old one still fires |
| Wt.WT.Set | src/wt.ts:351-356 | the update is spread over the defaults |
| Wt.WT.Clear | src/wt.ts:347-349 | the defaults become empty |
| Wt.WT.Subscribe | src/wt.ts:366-371 | the callback is appended and the engine stays armed |
| Wt.WT.Unsubscribe | src/wt.ts:368-370 | the listener is removed and the engine stays armed |
| Wt.WT.Emit | src/wt.ts:157-172 | the snapshot is delivered with guarded latch code; only `send:completed` changes the latch state |
| Wt.WT.Track | src/wt.ts:303-337 | the queue grows by exactly the record built from the kind, the payload, the defaults and the page, and the debouncer is called |
| Wt.WT.Push | src/wt.ts:316-341 | the record goes to the tail and `signalEventChange` calls the debouncer |
| Wt.WT.ProcessEvents | src/wt.ts:271-301 | while loading nothing changes; otherwise the head batch leaves the queue and, when not empty, is posted with `send:started` emitted |
| Wt.WT.SendToServer | src/wt.ts:214-247 | the batch is posted to `${getRoot()}/wt/t` and `send:started` is emitted |
| Wt.WT.Flush | src/wt.ts:343-345 | with a call pending, `processEvents` runs now; otherwise nothing changes |
| Wt.WT.OnMinTimer | src/wt.ts:373-381 | the quiet timer runs `processEvents` and leaves the debouncer idle |
| Wt.WT.OnMaxTimer | src/wt.ts:373-381 | the ceiling timer runs `processEvents` and leaves the debouncer idle |
| Wt.WT.OnRetiredTimer | src/wt.ts:373-381 | a timer of a replaced debouncer still runs `processEvents` once |
| Wt.WT.Resolve | src/wt.ts:284-294 | `send:completed` sets `firstLoaded`, then `queue:continued` (re-arming the debouncer) or `queue:completed`, and `loading` is cleared |
| Wt.WT.SignalQueueState | src/wt.ts:286-292 | `queue:continued` after calling the debouncer when events wait, `queue:completed` otherwise |
| Wt.WT.OnFetchFulfilled | src/wt.ts:240-242 | any settled `fetch` resolves the delivery |
| Wt.WT.OnFetchRejected | src/wt.ts:243-245 | a rejected `fetch` falls back to the pixel at `${getUrl()}?fallback=true&`, with the same payload |
| Wt.WT.OnPixelLoad | src/wt.ts:221-225 | the fallback pixel loading resolves the delivery |
| Wt.WT.OnPixelError | src/wt.ts:226-230 | the fallback pixel failing drops the batch and clears `loading`, with no signal |
| Index.RequestEnv | src/index.js:140-149 | the request environment is well formed |
| Index.RouteOf | src/index.js:258-261 | a falsy member is tracked as an event, a function member is called, and any other truthy member is a call that throws |
| Index.StringField | src/index.js:51 | `pageUuid` is truthy exactly when it holds a non-empty token |
| Index.PageToken | src/index.js:155 | `this.pageUuid \|\| this.getUUIDToken()` is never empty: the cached token when truthy, otherwise the page cookie or a fresh, unstored uuid |
| Index.PageUuidAlwaysSent | src/index.js:151-157 | every record the oldest engine queues carries a non-empty `page_uuid`, the token just looked up |
| Index.WT.constructor | src/index.js:44-56 | a new engine: empty configuration and defaults as two objects, the fixed 500/1500 debouncer, one latch subscribed, not loaded |
| Index.WT.ResetFirstLoad | src/index.js:58-71 | the latch state becomes `Reset` of the old one and the engine stays armed |
| Index.WT.AfterFirstLoad | src/index.js:73-83 | after the first load the callback is called at once; before it a wrapper is registered |
| Index.WT.GetUUIDToken | src/index.js:97-100 | the page cookie's token, or a fresh one that is not stored, goes to `uuid` |
| Index.WT.GetVisitorToken | src/index.js:93-95 | the visitor cookie, created when missing; the query string is not read |
| Index.WT.Initialize | src/index.js:85-91 | the configuration is replaced by the update's result; with `cookies` set, `uuid` is the page token and the visitor cookie exists |
| Index.WT.Config | src/index.js:239-241 | the update is assigned onto the configuration object in place; the debouncer is not rebuilt |
| Index.WT.Set | src/index.js:235-237 | the update is assigned onto the defaults object in place |
| Index.WT.Clear | src/index.js:231-233 | the defaults become a new empty object |
| Index.WT.Subscribe | src/index.js:243-248 | the callback is appended and the engine stays armed |
| Index.WT.Unsubscribe | src/index.js:245-247 | the listener is removed and the engine stays armed |
| Index.WT.Emit | src/index.js:66-81 | the snapshot is delivered with unguarded latch code until a callback throws; the trace records the callbacks reached; other signals never throw |
| Index.WT.EventPageUuid | src/index.js:151-157 | the event's page token; `uuid` is written only when `getUUIDToken` runs |
| Index.WT.HandleEvent | src/index.js:192-221 | the queue grows by exactly the record built from the kind, the payload, the defaults, the page and the page token, and the debouncer is called |
| Index.WT.Enqueue | src/index.js:205-220 | the record built with the given page token goes to the tail and the debouncer is called |
| Index.WT.Push | src/index.js:205-224 | the record goes to the tail and `signalEventChange` calls the debouncer |
| Index.WT.ProcessEvents | src/index.js:159-190 | while loading nothing changes; otherwise the head batch leaves the queue and, when not empty, `send:started` is emitted and the pixel requested |
| Index.WT.StartSend | src/index.js:170-189 | a non-empty batch sets `loading`, emits `send:started` and requests the pixel |
| Index.WT.SendToServer | src/index.js:120-138 | the pixel is created on first use and pointed at `${getUrl()}?` with the payload |
| Index.WT.Flush | src/index.js:227-229 | with a call pending, `processEvents` runs now; otherwise nothing changes |
| Index.WT.OnMinTimer | src/index.js:52-54 | the quiet timer runs `processEvents` and leaves the debouncer idle |
| Index.WT.OnMaxTimer | src/index.js:52-54 | the ceiling timer runs `processEvents` and leaves the debouncer idle |
| Index.WT.OnPixelLoad | src/index.js:173-183 | `send:completed` is emitted; unless a callback throws, the queue signal follows and `loading` is cleared; a throw leaves `loading` set for good |
| Index.WT.Settle | src/index.js:175-182 | after `send:completed` the queue signal follows and `loading` is cleared |
| Index.WT.SignalQueueState | src/index.js:175-181 | `queue:continued` after calling the debouncer when events wait, `queue:completed` otherwise |
| Index.WT.OnPixelError | src/index.js:132-136 | the pixel failing drops the batch and clears `loading`, with no signal |
| Index.WT.Property | src/index.js:258 | `wt[cmd]`: the class's methods are functions, the fixed object fields are objects, unknown names are `undefined` |
| Index.WT.Run | src/index.js:255-263 | the command routes by `wt[cmd]`; a falsy member tracks the command as an event named `cmd`, and nothing else changes otherwise |
| Index.WT.UnknownCommand | src/index.js:258-261 | any name that is no member of the engine is tracked as an event |
| Index.WT.InitializeCommand | test/index.js:11 | `wt('initialize', ...)` calls the method |
| Index.WT.TestCommand | test/index.js:43 | `wt('test', ...)` is tracked as an event |
| Index.WT.EventCommand | test/index.js:50 | `wt('event', ...)` is tracked as an event |
| Index.WT.LoadingCommand | src/index.js:258-261 | `wt('loading')` is tracked as an event while no delivery is pending and is a call that throws while one is |

## Left out

- Js.Put: a new key always goes last. In JavaScript, integer-like keys ("0", "42") are listed first by `Object.keys`, in ascending numeric order, whatever the insertion order. So for such keys the model's key order differs from the program's; values are unaffected.
- Colliding keys in the current engine's records: when several default, call or reserved keys convert to the same name (`URL` and `url`, `Kind` and `kind`), the last of them in the merged literal gives the value, which `ClientEvents.EventLastWins` states. Defaults `{url: "a"}` and a call `{URL: "x"}` queue `url: "x"`; defaults `{kind, Kind: "D"}` make `track("s")` queue `kind: "D"`. The per-field lemmas below leave that case to `EventLastWins`.
- ClientEvents.EventAt: stated only for a key that no other default, call or reserved key converts onto.
- ClientEvents.EventField: stated only for a key that no other key converts onto.
- ClientEvents.EventKind: stated only when no other key converts to `kind`.
- ClientEvents.EventKindOf: stated only when no other key converts to `kind`.
- ClientEvents.EventMetadataField: stated only when no other key converts to `metadata`.
- ClientEvents.EventEnvironment: stated only when no parameter converts onto `url`, `referrer`, `page_uuid` or `ts`; collisions among other keys are allowed.
- ClientEvents.EventEnvAt: stated only when no parameter converts onto the field's name.
- Unicode: strings are sequences of characters; `toLowerCase` is modelled on ASCII letters only.
- Floating point: numbers are integers (timestamps, viewport sizes). `Math.random` is replaced by its 31 nibble draws, or by the resulting uuid passed in as `drawn`.
- Spreading a non-object (a string, an array) into a record: only plain objects are spread.
- Object.prototype members: a name such as `toString` counts as absent, in records and in `Index.WT.Property`.
- `resolveMethod`'s extra `this` argument: an update function sees only the current value.
- Query-string and JSON serialisation (`QS.stringify`, `JSON.stringify`), and the `fetch` options and headers. A request is modelled as its address and its payload. A pixel `src` is modelled up to the `?`, and the query is the payload.
- Cookie attributes (`expires`, the cookie options object) and cookie expiry: the jar is a map.
- Configuration entries of the wrong type (a non-string `trackerUrl`, say) count as absent.
- Debounce timing: timers are events the host fires (`OnMinTimer`, `OnMaxTimer`); the waits are kept but not simulated.
- `loaderImage` reuse across deliveries, and handlers left installed after `delete`.
- src/react.tsx, src/script.ts and lib/ are not part of this model.
- A `null` or `undefined` payload passed explicitly is not modelled; the payload is always an object.
- Index.WT.Initialize: the result of the update must be a plain object; the oldest engine accepts any value. The model also does not keep the aliasing between the caller's object and `wtConfig`.
- Index.WT.Run: a `CallMember` route is reported rather than performed; the other commands are the methods of `Index.WT`. A `NotCallable` route stands for the `TypeError` thrown.
- Re-entry from host callbacks: a subscriber does not call the engine (`track`, `set`, `config`, `subscribe`, an unsubscribe function, `resetFirstLoad`, `afterFirstLoad`) from inside `emit`. The settle methods (`Client.WT.OnFetchSettled`, `Wt.WT.Resolve`, `Index.WT.OnPixelLoad` and `Index.WT.Settle`) decide between `queue:continued` and `queue:completed` from the queue as it was before `send:completed` was emitted, and the listeners an emit reaches are the snapshot taken when it starts. A `send:completed` subscriber that calls `track` would, in the program, make the queue non-empty before that check.
- Client.WT.Emit: host callbacks never throw in this model; the same holds for `Wt.WT.Emit` and `Index.WT.Emit`, and `Index.WT.Emit` models only the engine's own throw.
- Wt.WT.OnFetchFulfilled: a throw from a callback during `resolve`, which the `.catch` would then turn into a pixel fallback, is not modelled.
- Wt.WT.ProcessEvents: `send:started` is emitted after the `fetch` starts; the model records the signal and the pending transfer together.

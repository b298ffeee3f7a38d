# astand store engine, modelled in Dafny

This project models the state container of the astand library. It covers
`createStore` with its middleware pipeline and listeners, the library's
middlewares (console-log, timestamp, validation, debug, throttle), and the
three example stores built on it: counter, profile and middleware-test.

- **State** is a `map<string, Value>`. A `Value` is `undefined`, `NaN`, an
  integer, a string or a nested object (`values.dfy`).
- **The live state** is one mutable `Record` object. Middlewares that write
  nextState (timestamp, application middlewares) change it in place. The
  `prevState` snapshot is a value, so nothing can change it.
- **Console output, callback calls, middleware calls and listener calls** are
  recorded in order in a ghost `trace` of `Event`s on the store. A listener
  is an identifier; JavaScript compares listeners by reference.
- **A middleware** is a datatype with one case per library middleware. There
  is also a `Custom` case for application code: it is a function from
  `(prevState, nextState)` to the contents it leaves in nextState and the
  error it throws, if any.
- **The throttle closure** is a `Throttle` object holding `lastUpdate`. The
  pure specification threads the `lastUpdate` of every throttle as a map.
- **Time** is a parameter. Each `setState` gets one `Clock` (`Date.now()` and
  its ISO string), and all middlewares of that update see the same instant.

Each imperative operation is proved against a pure specification.
`Store.Pipeline` specifies `runMiddleware`, and `Store.Transition` specifies
a whole `setState`. The lemmas next to them state what the source promises:
call order, error isolation, which keys change, and where the listeners come.
The concrete stores are specified by lemmas that compute their whole
`Transition`. The component tests become lemmas: 0, 1, 0 for the counter,
the rename to "Alice", and one console.error when the count drops below zero.

The throttle's "allowed after" message is computed after `lastUpdate := now`,
so the gap it logs is always 0. The model keeps this (`ThrottleMiddleware.Step`).

`src/lib/store.svelte.ts:176-179` defines a `timestampMiddleware` identical
to the one in `src/lib/middlewares/timestamp.ts:11-14`. Both are modelled by
the `TimestampMiddleware` module. `src/lib/index.ts:14` imports
`debugMiddleware` from `src/lib/middlewares/index.ts`, which does not export
it. The middleware-test store is modelled with the middleware of
`src/lib/middlewares/debug.ts`.

## Model

| member | source | states |
|---|---|---|
| Values.Get | src/stores/counterStore.svelte.ts:25 | property access reads a missing key as `undefined` and a present key as its value |
| Values.Spread | src/stores/profileStore.svelte.ts:37 | spreading an object gives its own keys; spreading `undefined` gives none |
| Values.Record.constructor | src/lib/store.svelte.ts:89 | the live state starts as the initial state |
| Events.ErrorCount | src/components/__tests__/TestMiddleware.svelte.test.ts:89 | the number of console.error calls is at most the number of events, and it is 0 exactly when none of them is an error line |
| Events.ErrorCountAppend | src/components/__tests__/TestMiddleware.svelte.test.ts:77-90 | the console.error calls of two runs add up |
| ValidationMiddleware.EffectiveLevel | src/lib/middlewares/validation.ts:23 | an absent level or the empty string falls back to "error"; any other level is kept; the result is never empty |
| ValidationMiddleware.Validate | src/lib/middlewares/validation.ts:20-35 | the loop over the conditions writes at most one line per condition; its lines are pinned down by `ValidateReports` and its error by `ValidateError` |
| ValidationMiddleware.ValidateError | src/lib/middlewares/validation.ts:21-31 | the middleware throws exactly when some condition fails at a level other than warn/log, and then with the message of the first such condition |
| ValidationMiddleware.ValidateReports | src/lib/middlewares/validation.ts:20-35 | every reported line comes from a failing warn/log condition; when every predicate holds there is no output and no throw |
| ValidationMiddleware.StopsAtFirstBlock | src/lib/middlewares/validation.ts:29-31 | conditions after the first blocking one are never consulted, and the error carries its message |
| ValidationMiddleware.ReportsAllBeforeBlock | src/lib/middlewares/validation.ts:25-28 | every failing warn/log condition before any blocking one is reported |
| ValidationMiddleware.ValidateAppend | src/lib/middlewares/validation.ts:21-28 | over conditions that throw nothing followed by any others, the loop reports what the first ones report, then does what it does over the rest |
| ValidationMiddleware.ContinuesPastReports | src/lib/middlewares/validation.ts:21-28 | a reporting condition does not stop the loop: the verdict is the reports of a prefix that throws nothing, followed by the verdict of the rest |
| DebugMiddleware.Caught | src/lib/middlewares/debug.ts:19-23 | a callback that returns writes nothing; one that throws writes exactly one error line naming the callback |
| DebugMiddleware.Run | src/lib/middlewares/debug.ts:17-33 | one invocation emits at most four events, all of them callback calls or console.error lines |
| DebugMiddleware.RunOrder | src/lib/middlewares/debug.ts:17-33 | an absent callback is never called; a present one is called exactly once; beforeChange gets prevState and comes first; afterChange gets nextState and comes after it, whatever beforeChange did |
| DebugMiddleware.RunLines | src/lib/middlewares/debug.ts:19-31 | every console line is the error line of a callback that threw; beforeChange's line follows its call and precedes afterChange; afterChange's line follows its call |
| DebugMiddleware.RunErrors | src/lib/middlewares/debug.ts:18-32 | each throwing callback costs exactly one console.error and nothing escapes |
| ThrottleMiddleware.Step | src/lib/middlewares/throttle.ts:17-23 | too soon (`now - lastUpdate < threshold`) warns with the elapsed time and keeps lastUpdate; otherwise lastUpdate becomes now and the logged gap is 0 |
| ThrottleMiddleware.LastIsAllowedTime | src/lib/middlewares/throttle.ts:14-23 | after any sequence of invocations lastUpdate is the time of the last invocation let through (one at least threshold after the lastUpdate before it), and 0 while none has been |
| ThrottleMiddleware.Throttle.constructor | src/lib/middlewares/throttle.ts:13-14 | a new throttle closure starts with lastUpdate 0 |
| ThrottleMiddleware.Throttle.Invoke | src/lib/middlewares/throttle.ts:15-25 | one invocation updates lastUpdate and reports exactly as `Step` says |
| ThrottleMiddleware.Independent | src/lib/middlewares/throttle.ts:13-14 | two middlewares from separate calls are distinct objects; invoking one leaves the other's lastUpdate at 0 |
| TimestampMiddleware.Stamped | src/lib/middlewares/timestamp.ts:13 | `updatedAt` holds the stamp; every other key keeps its value and presence |
| TimestampMiddleware.StampOverwrites | src/lib/middlewares/timestamp.ts:2-13 | an earlier `updatedAt` is overwritten, so stamping twice equals stamping once with the later time |
| TimestampMiddleware.Stamp | src/lib/middlewares/timestamp.ts:11-14 | the middleware writes the stamp into the live nextState in place |
| Store.MiddlewareList | src/lib/store.svelte.ts:91 | no options, or options without `middleware`, give an empty list; otherwise the given list |
| Store.FragmentOf | src/lib/store.svelte.ts:116 | a patch is merged as given; an updater is called with the current state, before any key is assigned |
| Store.Apply | src/lib/store.svelte.ts:99 | one middleware call; no call adds or drops a throttle clock (what each kind does is in `ApplyFacts`) |
| Store.Pipeline | src/lib/store.svelte.ts:96-104 | the forEach over the middlewares keeps every throttle clock; its events are pinned down by `PipelineStep` and `CallsInOrder` |
| Store.Transition | src/lib/store.svelte.ts:113-127 | a whole `setState` keeps every throttle clock and adds one event per listener (the last ones, by `ListenersLast`) |
| Store.Merge | src/lib/store.svelte.ts:118-122 | the fragment's keys take the fragment's values; every other key keeps its value; no key is lost |
| Store.ApplyFacts | src/lib/store.svelte.ts:96-104 | only validation and application middlewares throw; only timestamp and application middlewares change nextState; only throttles move a clock; no middleware calls a listener |
| Store.Caught | src/lib/store.svelte.ts:100-102 | a thrown error writes exactly one console.error line; no throw writes nothing |
| Store.PipelineStep | src/lib/store.svelte.ts:96-104 | running one more middleware extends the run of those before it with its call, its output and its logged error |
| Store.Notifications | src/lib/store.svelte.ts:126 | every listener is called exactly once, in registration order, with the given state |
| Store.Without | src/lib/store.svelte.ts:133-135 | the listener is removed everywhere; every other listener keeps its number of occurrences |
| Store.Calls | src/lib/store.svelte.ts:97 | the extracted events are all middleware calls |
| Store.CallsAppend | src/lib/store.svelte.ts:97 | the calls of two runs are the calls of each, in order |
| Store.NoCalls | src/lib/store.svelte.ts:96-104 | a run with no middleware-call events contributes no calls |
| Store.CallsInOrder | src/lib/store.svelte.ts:96-104 | every middleware is called once and in list order, even after a throw; each gets the pre-merge snapshot as prevState and, as nextState, the live state the earlier ones left |
| Store.PrefixRun | src/lib/store.svelte.ts:97 | the output of the first k middlewares is a prefix of the whole run's output |
| Store.ThrowIsLogged | src/lib/store.svelte.ts:98-102 | a throwing middleware's error is logged with console.error within the run |
| Store.BuiltInRun | src/lib/store.svelte.ts:96-104 | with the library's own middlewares the merged state is only stamped, and only when the list has a timestamp middleware |
| Store.OnlyFragmentKeysChange | src/lib/store.svelte.ts:113-124 | `setState` overwrites exactly the fragment's keys; an updater is called with the pre-update state; other keys keep value and presence, except `updatedAt` under a timestamp middleware |
| Store.SetStateSteps | src/lib/store.svelte.ts:113-127 | merging, then running the middlewares, then notifying make up one `Transition` |
| Store.TransitionEvents | src/lib/store.svelte.ts:124-126 | an update's output is the middleware run followed by the notifications |
| Store.ListenersLast | src/lib/store.svelte.ts:124-126 | the last events of an update are the listener calls with the final state |
| Store.WithoutAbsent | src/lib/store.svelte.ts:133-135 | removing a listener that is not registered changes nothing |
| Store.UnsubscribeIdempotent | src/lib/store.svelte.ts:133-135 | calling the unsubscribe closure again changes nothing |
| Store.WithoutAppend | src/lib/store.svelte.ts:134 | filtering keeps the others in their order |
| Store.SubscribeThenUnsubscribe | src/lib/store.svelte.ts:129-135 | subscribe followed by its unsubscribe gives the old list without that listener |
| Store.Store.NoThrottles | src/lib/store.svelte.ts:91 | a middleware list without throttles has no clocks |
| Store.Store.constructor | src/lib/store.svelte.ts:87-91 | the store starts with the initial state, no listeners and `options?.middleware ?? []` |
| Store.Store.GetState | src/lib/store.svelte.ts:107-109 | returns the live state object itself |
| Store.Store.GetRaw | src/lib/store.svelte.ts:110-112 | returns a value equal to the current state |
| Store.Store.SetState | src/lib/store.svelte.ts:113-127 | the new state, the throttle clocks and the output are those of `Transition` from the pre-update state; listeners are unchanged |
| Store.Store.Assign | src/lib/store.svelte.ts:118-122 | the key loop leaves the live state equal to `Merge` of the old state and the fragment |
| Store.Store.RunMiddlewares | src/lib/store.svelte.ts:96-104 | the loop leaves state, clocks and output as `Pipeline` says |
| Store.Store.GuardedCall | src/lib/store.svelte.ts:98-102 | one guarded call: the middleware's effect, then its error logged if it threw |
| Store.Store.NotifyListeners | src/lib/store.svelte.ts:126 | appends the notifications of every listener with the current state |
| Store.Store.RunMiddleware | src/lib/store.svelte.ts:99 | one middleware call changes state, clocks and output and returns its error as `Apply` says |
| Store.Store.Subscribe | src/lib/store.svelte.ts:129-132 | appends the listener and calls it once with the current state; the state does not change |
| Store.Store.Unsubscribe | src/lib/store.svelte.ts:133-135 | the listener list becomes `Without` the listener |
| Store.SvelteStore.constructor | src/lib/store.svelte.ts:149-153 | the wrapper holds the store |
| Store.SvelteStore.Subscribe | src/lib/store.svelte.ts:151 | subscribing through the wrapper is the store's own subscribe |
| CounterStore.Plus | src/stores/counterStore.svelte.ts:25 | adding to a number is exact; a missing or NaN count gives NaN |
| CounterStore.CountBy | src/stores/counterStore.svelte.ts:24-29 | the updater's fragment has the one key `count`, moved by d when it is a number |
| CounterStore.ConsoleLogFirst | src/stores/counterStore.svelte.ts:18 | console-log runs first and leaves the merged state alone |
| CounterStore.CounterPipeline | src/stores/counterStore.svelte.ts:18 | console-log then timestamp: both are called with the snapshot and the merged state, and only the stamp changes it |
| CounterStore.CountStep | src/stores/counterStore.svelte.ts:24-29 | an increment or decrement moves the count by d, sets `updatedAt`, leaves the rest, and calls listeners with that state |
| CounterStore.IncrementThenDecrement | src/components/__tests__/Counter.svelte.test.ts:17-31 | increment then decrement restores a numeric count; the state is the start state with the later stamp |
| CounterStore.BumpBack | src/stores/counterStore.svelte.ts:24-29 | +1 then -1 on a numeric count, with a stamp between, gives the count back |
| CounterStore.Counter.constructor | src/stores/counterStore.svelte.ts:17-20 | the counter starts at `{count: 0}` with console-log and timestamp |
| CounterStore.Counter.Increment | src/stores/counterStore.svelte.ts:24-26 | count goes up by exactly 1 and `updatedAt` is set; middlewares and listeners run as `CountStep` says |
| CounterStore.Counter.Decrement | src/stores/counterStore.svelte.ts:27-29 | count goes down by exactly 1, with no lower bound, and `updatedAt` is set |
| CounterStore.Counter.Update | src/stores/counterStore.svelte.ts:24-29 | the shared `setState` with the counting updater |
| ProfileStore.ProfilePipeline | src/stores/profileStore.svelte.ts:29 | console-log is called with the snapshot and the merged state and changes nothing |
| ProfileStore.ProfileStep | src/stores/profileStore.svelte.ts:29-37 | every profile update is the merge, a console-log line, then the listener calls |
| ProfileStore.AddressMerges | src/stores/profileStore.svelte.ts:36-37 | the given address fields take the new values; other address fields and every other top-level field are kept |
| ProfileStore.EmptyAddressUpdate | src/stores/profileStore.svelte.ts:36-37 | `updateAddress({})` leaves an object address unchanged |
| ProfileStore.AddressUpdater | src/stores/profileStore.svelte.ts:36-37 | the updater returns a one-key fragment which, merged into the state it was given, yields `WithAddress` |
| ProfileStore.RenameFromInitial | src/components/__tests__/Profile.svelte.test.ts:27-41 | from the initial profile, renaming to "Alice" changes only the name |
| ProfileStore.Profile.constructor | src/stores/profileStore.svelte.ts:20-30 | the profile starts as John Doe, 30, New York/USA, with console-log |
| ProfileStore.Profile.UpdateName | src/stores/profileStore.svelte.ts:34 | only `name` changes, to the given string |
| ProfileStore.Profile.UpdateAge | src/stores/profileStore.svelte.ts:35 | only `age` changes, to the given number |
| ProfileStore.Profile.UpdateAddress | src/stores/profileStore.svelte.ts:36-37 | only `address` changes, to the shallow merge of the old address and the given fields |
| ProfileStore.Profile.Commit | src/stores/profileStore.svelte.ts:34-37 | a `setState` on this store merges and logs, then notifies |
| MiddlewareTestStore.NonNegative | src/stores/middlewareTestStore.svelte.ts:36 | `s.count >= 0` holds exactly on a present numeric count that is not negative; a missing or NaN count fails |
| MiddlewareTestStore.UpToOne | src/stores/middlewareTestStore.svelte.ts:27 | console-log runs first on the merged state |
| MiddlewareTestStore.UpToTwo | src/stores/middlewareTestStore.svelte.ts:27-28 | timestamp runs second and stamps the state |
| MiddlewareTestStore.UpToThree | src/stores/middlewareTestStore.svelte.ts:27-32 | debug runs third: beforeChange sees the snapshot, afterChange the stamped state |
| MiddlewareTestStore.ValidateCount | src/stores/middlewareTestStore.svelte.ts:34-40 | the condition is silent on a non-negative count and otherwise throws its message |
| MiddlewareTestStore.TestPipeline | src/stores/middlewareTestStore.svelte.ts:25-41 | the four middlewares in order; the only error line is validation's, exactly when the stamped count is not non-negative |
| MiddlewareTestStore.CountStep | src/stores/middlewareTestStore.svelte.ts:50-55 | an increment or decrement as a whole update, with its full output |
| MiddlewareTestStore.ExpectedErrors | src/stores/middlewareTestStore.svelte.ts:34-40 | one update logs one console.error when the count is negative and none otherwise |
| MiddlewareTestStore.ErrorsOfStep | src/stores/middlewareTestStore.svelte.ts:26-40 | a negative count is not blocked: it is stored and stamped, and it costs exactly one console.error |
| MiddlewareTestStore.DecrementBelowZero | src/components/__tests__/TestMiddleware.svelte.test.ts:77-90 | from count 1, two decrements give 0 and then -1, with one console.error in all |
| MiddlewareTestStore.TestStore.constructor | src/stores/middlewareTestStore.svelte.ts:45-46 | the store starts at `{count: 0}` with the four middlewares |
| MiddlewareTestStore.TestStore.Increment | src/stores/middlewareTestStore.svelte.ts:50-52 | the new state is the stamped bump by +1 and the trace grows by `Expected` and the notifications; an error is logged only if the result is negative |
| MiddlewareTestStore.TestStore.Decrement | src/stores/middlewareTestStore.svelte.ts:53-55 | the new state is the stamped bump by -1, even below zero, and the trace grows by `Expected` and the notifications; one error is logged when the result is negative |
| MiddlewareTestStore.TestStore.Update | src/stores/middlewareTestStore.svelte.ts:50-55 | the shared `setState` with the counting updater and its full output |

## Left out

- The `$state` rune and reactive proxies: the live state is a plain mutable record.
- `cloneState` (`structuredClone` with a JSON fallback) is a foreign call. The snapshot is the state's value, and `getRaw` returns that value.
- Real console output: log, warn and error lines are events in a ghost trace. The error object is reduced to its message.
- `Date.now()` and `toISOString()`: the instant is a parameter of each update.
- Persistence: the `persist` option of the profile and middleware-test stores is accepted by the store and has no effect.
- `combineStores`, `CombinedState`, `DebugStore` and `AstandDebug`, and the combined and greeter stores: they are not part of this model.
- The re-export modules `src/lib/index.ts` and `src/lib/middlewares/index.ts`.
- Exceptions thrown by listeners or by updater functions: they escape `setState` and the source makes no promise about them.
- Application middlewares that mutate `prevState` or call back into the store, and listeners that unsubscribe during notification.
- Debug callbacks (`DebugMiddleware.Callback`) are pure functions of the state that return or throw. A callback that writes to the prevState snapshot or to the live nextState it is handed is not modelled. `BuiltInRun`, `OnlyFragmentKeysChange` and the prevState half of `CallsInOrder` rely on this for lists that hold a debug middleware.
- Validation predicates (the `check` of `ValidationMiddleware.Condition`) are pure, total and never throw. A predicate that writes to the state is not modelled. Neither is one that throws; its error would escape the middleware and be logged as a middleware error. `BuiltInRun` and `OnlyFragmentKeysChange` rely on this for lists that hold a validation middleware.
- The test store's debug callbacks (`MiddlewareTestStore.Quiet`) write 'Before change:' and 'After change:' console.log lines. The trace records the callback calls but not these lines.
- JavaScript numbers are modelled as integers, so fractional counts, ages and thresholds are out of scope.
- CounterStore.Plus: a count that is a string or an object gives NaN in the model. JavaScript would concatenate or coerce it.
- MiddlewareTestStore.NonNegative: a string count is treated as failing the check. JavaScript would coerce it to a number.
- Values.Spread: spreading a string gives no keys in the model. JavaScript gives its character indices.
- Non-enumerable and inherited keys: a fragment's keys are exactly its own keys.

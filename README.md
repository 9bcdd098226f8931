# CPU profiler model of a DevTools front end

A Dafny model of `CPUProfilerModel`, the per-target profiling-session manager
of the Lynx DevTools front end
(`packages/devtools-frontend-lynx/front_end/core/sdk/CPUProfilerModel.ts`).
For one debugging target the manager keeps three pieces of local state:

- the recording flag;
- the anonymous console-profile counter and the id-to-title map of ids whose untitled start has not yet been consumed by an untitled finish (a titled finish leaves the entry in place);
- the single slot for the precise-coverage delta callback.

It builds global profile ids from the target id, which it reads from the target.

It talks to the remote profiler agent, republishes console-profile events
to listeners, and reports statistics.

The model is the class `CPUProfiler.CPUProfilerModel`. Four of its mutable
fields (`isRecording`, `nextAnonymousConsoleProfileNumber`,
`anonymousConsoleProfileIdToTitle`, `preciseCoverageDeltaUpdateCallback`) are the
source's; the others are the logs below and a ghost log of the console events
received. The constant `targetId` stands for the target's
id read through the model's target (`this.target().id()`); the agent and the
debugger model have no field of their own. Each method states its complete new state, and the
field-granular `modifies` clauses say what it may change. Side effects on the
outside world are append-only logs:

- `agentCalls`: calls to the agent, from `Enable` in the constructor onwards;
- `published`: events given to listeners;
- `statistics`: statistics reports, as category and `type`;
- `deliveries`: invocations of the coverage callback.

The agent's replies (to `stop` and `takePreciseCoverage`) are parameters of
the methods that wait for them. Callbacks are identified by a number.

The anonymous-profile bookkeeping is also given as values in `ConsoleProfiles`:

- `Start` and `Finish` handle one event;
- `Replay` handles a sequence of inbound console-profile events;
- `Valid` is the registry invariant.

The class keeps a ghost log of the console events it received. Its `Valid()`
says three things:

- its counter and map are what `Replay` gives from the initial state;
- the k-th published event carries the k-th replayed title, the global id of the k-th event's id, and the matching event kind;
- only finished events carry a profile.

The lemmas about `Replay` therefore apply to the published events. They cover
numbering ("Profile N" for the N-th anonymous profile) and correlation (an
untitled finish publishes the title its untitled start got).

`Decimal` renders numbers for "Profile N" and proves that rendering is
invertible, so different numbers give different titles. `PreciseCoverage`
gives the normalisation of the coverage snapshot. `Scenarios` drives fresh
models through call sequences with a fixed outcome.

Two consequences of the code's JavaScript truthiness tests:

- An untitled console profile is one whose `title` is falsy. That means undefined or the empty string, not only undefined. So a finish with title `""` also consumes the stored title.
- `takePreciseCoverage` keeps an empty coverage array as it is. Only a missing reply or a missing `result` becomes `[]`.

## Model

| member | source | states |
|---|---|---|
| Decimal.ParseNatToString | packages/devtools-frontend-lynx/front_end/core/sdk/CPUProfilerModel.ts:90 | reading back the decimal rendering of the profile number gives the number |
| Decimal.NatToStringInjective | packages/devtools-frontend-lynx/front_end/core/sdk/CPUProfilerModel.ts:90 | two profile numbers have the same rendering exactly when they are equal |
| ConsoleProfiles.ProfileTitle | packages/devtools-frontend-lynx/front_end/core/sdk/CPUProfilerModel.ts:90 | the anonymous title is "Profile " followed by a non-empty run of decimal digits |
| ConsoleProfiles.IsFalsy | packages/devtools-frontend-lynx/front_end/core/sdk/CPUProfilerModel.ts:89 | a title is falsy unless it is present and non-empty (the `!title` tests at lines 89 and 97) |
| ConsoleProfiles.Initial | packages/devtools-frontend-lynx/front_end/core/sdk/CPUProfilerModel.ts:71-72 | the bookkeeping starts with counter 1 and an empty map |
| ConsoleProfiles.Start | packages/devtools-frontend-lynx/front_end/core/sdk/CPUProfilerModel.ts:89-91 | a falsy title gives counter+1, id -> "Profile N" and title "Profile N" (N the old counter); otherwise the registry is unchanged and the given title is used |
| ConsoleProfiles.Finish | packages/devtools-frontend-lynx/front_end/core/sdk/CPUProfilerModel.ts:97-99 | the counter is unchanged; a falsy title removes the id and yields its stored title, or undefined when there is none; otherwise the registry is unchanged and the given title is used |
| ConsoleProfiles.ProfileTitleInjective | packages/devtools-frontend-lynx/front_end/core/sdk/CPUProfilerModel.ts:88-92 | "Profile a" equals "Profile b" exactly when a equals b |
| ConsoleProfiles.InitialValid | packages/devtools-frontend-lynx/front_end/core/sdk/CPUProfilerModel.ts:70-72 | the initial bookkeeping (counter 1, empty map) satisfies the registry invariant |
| ConsoleProfiles.NextTitleIsFresh | packages/devtools-frontend-lynx/front_end/core/sdk/CPUProfilerModel.ts:88-92 | under the invariant, the title about to be handed out is stored under no id |
| ConsoleProfiles.StartKeepsValid | packages/devtools-frontend-lynx/front_end/core/sdk/CPUProfilerModel.ts:88-92 | consoleProfileStarted keeps every stored title equal to "Profile k" with 1 <= k < counter, keeps titles distinct across ids, and never lowers the counter |
| ConsoleProfiles.FinishKeepsValid | packages/devtools-frontend-lynx/front_end/core/sdk/CPUProfilerModel.ts:96-100 | consoleProfileFinished keeps the registry invariant and leaves the counter unchanged |
| ConsoleProfiles.StartThenFinish | packages/devtools-frontend-lynx/front_end/core/sdk/CPUProfilerModel.ts:88-100 | an untitled start followed by an untitled finish of the same id publishes "Profile N" (N the counter) both times, and leaves the counter at N+1 and the map without that id |
| ConsoleProfiles.UnmatchedFinish | packages/devtools-frontend-lynx/front_end/core/sdk/CPUProfilerModel.ts:96-100 | an untitled finish for an id not in the map publishes an undefined title and changes neither map nor counter |
| ConsoleProfiles.ReplayFacts | packages/devtools-frontend-lynx/front_end/core/sdk/CPUProfilerModel.ts:88-100 | over any event sequence: one title per event, the counter rises by the number of untitled starts, and the invariant is kept |
| ConsoleProfiles.ReplayAt | packages/devtools-frontend-lynx/front_end/core/sdk/CPUProfilerModel.ts:88-100 | the title published for an event is determined by the events before it and the event itself |
| ConsoleProfiles.ReplayKeepsEntry | packages/devtools-frontend-lynx/front_end/core/sdk/CPUProfilerModel.ts:91-99 | events for other ids, and titled events for the same id, leave an id's map entry (presence and title) unchanged |
| ConsoleProfiles.AnonymousTitleOrdinal | packages/devtools-frontend-lynx/front_end/core/sdk/CPUProfilerModel.ts:88-93 | an untitled start publishes "Profile N", N the starting counter plus the number of earlier untitled starts |
| ConsoleProfiles.MatchedFinishTitle | packages/devtools-frontend-lynx/front_end/core/sdk/CPUProfilerModel.ts:88-105 | an untitled finish publishes the same title as the untitled start of its id when no untitled event for that id came in between |
| ConsoleProfiles.InitialOrdinal | packages/devtools-frontend-lynx/front_end/core/sdk/CPUProfilerModel.ts:68-94 | from construction on, the k-th untitled console profile (1-based) is titled "Profile k" |
| PreciseCoverage.Normalize | packages/devtools-frontend-lynx/front_end/core/sdk/CPUProfilerModel.ts:175-183 | no reply gives timestamp 0 and no coverage; a missing or zero timestamp gives 0, otherwise the reply's; a missing result gives [], otherwise the reply's list |
| PreciseCoverage.NormalizeCompleteReply | packages/devtools-frontend-lynx/front_end/core/sdk/CPUProfilerModel.ts:179-182 | a complete reply built from a snapshot normalises to that snapshot |
| CPUProfiler.GlobalId | packages/devtools-frontend-lynx/front_end/core/sdk/CPUProfilerModel.ts:111 | the global id is the target id, then '.', then the backend id |
| CPUProfiler.GlobalIdInjective | packages/devtools-frontend-lynx/front_end/core/sdk/CPUProfilerModel.ts:111 | within one target, global ids are equal exactly when backend ids are |
| CPUProfiler.GlobalIdDisambiguates | packages/devtools-frontend-lynx/front_end/core/sdk/CPUProfilerModel.ts:111 | for target ids without '.', equal global ids mean equal targets and equal backend ids |
| CPUProfiler.PublishedOrdinal | packages/devtools-frontend-lynx/front_end/core/sdk/CPUProfilerModel.ts:88-94 | on a valid model, the event published for the k-th untitled start (1-based) is titled "Profile k" |
| CPUProfiler.PublishedMatched | packages/devtools-frontend-lynx/front_end/core/sdk/CPUProfilerModel.ts:88-105 | on a valid model, the event published for an untitled finish has the global id and the title of the event published for its id's untitled start, when no untitled event for that id came in between |
| CPUProfiler.CPUProfilerModel.constructor | packages/devtools-frontend-lynx/front_end/core/sdk/CPUProfilerModel.ts:68-78 | not recording, counter 1, empty map, no callback, `enable` sent to the agent, nothing published or reported |
| CPUProfiler.CPUProfilerModel.ConsoleProfileStarted | packages/devtools-frontend-lynx/front_end/core/sdk/CPUProfilerModel.ts:88-94 | untitled: counter +1 and the map gains id -> "Profile N"; titled: counter and map unchanged; publishes ConsoleProfileStarted under the global id with that title and no profile; keeps Valid() |
| CPUProfiler.CPUProfilerModel.ConsoleProfileFinished | packages/devtools-frontend-lynx/front_end/core/sdk/CPUProfilerModel.ts:96-105 | untitled: publishes the stored title, or undefined when there is none, and removes only that id; titled: map unchanged and the given title published; the event carries the profile; keeps Valid() |
| CPUProfiler.CPUProfilerModel.DispatchProfileEvent | packages/devtools-frontend-lynx/front_end/core/sdk/CPUProfilerModel.ts:107-120 | appends exactly one event with the global id, location, title and profile given |
| CPUProfiler.CPUProfilerModel.IsRecordingProfile | packages/devtools-frontend-lynx/front_end/core/sdk/CPUProfilerModel.ts:122-124 | returns the recording flag |
| CPUProfiler.CPUProfilerModel.StartRecording | packages/devtools-frontend-lynx/front_end/core/sdk/CPUProfilerModel.ts:126-138 | flag true; agent gets setSamplingInterval(100) then start; exactly one "profiler_start" record |
| CPUProfiler.CPUProfilerModel.StopRecording | packages/devtools-frontend-lynx/front_end/core/sdk/CPUProfilerModel.ts:140-161 | flag false whatever the reply; agent gets stop; returns the reply's profile or None; exactly one record, "profiler_success" with a profile and "profiler_fail" without |
| CPUProfiler.CPUProfilerModel.StartPreciseCoverage | packages/devtools-frontend-lynx/front_end/core/sdk/CPUProfilerModel.ts:163-173 | the callback slot holds the new callback (the old one is replaced); agent gets startPreciseCoverage(callCount false, detailed as given, allowTriggeredUpdates true) |
| CPUProfiler.CPUProfilerModel.TakePreciseCoverage | packages/devtools-frontend-lynx/front_end/core/sdk/CPUProfilerModel.ts:175-183 | agent gets takePreciseCoverage; result is the normalised reply |
| CPUProfiler.CPUProfilerModel.StopPreciseCoverage | packages/devtools-frontend-lynx/front_end/core/sdk/CPUProfilerModel.ts:185-188 | the callback slot is empty; agent gets stopPreciseCoverage |
| CPUProfiler.CPUProfilerModel.PreciseCoverageDeltaUpdate | packages/devtools-frontend-lynx/front_end/core/sdk/CPUProfilerModel.ts:190-194 | with a callback, it is invoked once with the three fields; without one, nothing happens |
| Scenarios.RecordAndStop | packages/devtools-frontend-lynx/front_end/core/sdk/CPUProfilerModel.ts:122-161 | recording reads true after start and false after stop; the profile is returned; the agent sees enable, setSamplingInterval(100), start, stop; "profiler_fail" is reported exactly once when there is no profile |
| Scenarios.AnonymousRoundTrip | packages/devtools-frontend-lynx/front_end/core/sdk/CPUProfilerModel.ts:88-120 | an untitled start and finish on a fresh model publish "Profile 1" twice under "target.id", the profile only on finish, and leave the map empty |
| Scenarios.FinishWithoutStart | packages/devtools-frontend-lynx/front_end/core/sdk/CPUProfilerModel.ts:96-105 | an untitled finish with no prior start publishes an undefined title and leaves the counter at 1 |
| Scenarios.TitledFinishKeepsEntry | packages/devtools-frontend-lynx/front_end/core/sdk/CPUProfilerModel.ts:96-100 | an untitled start then a titled finish of one id publishes the given title and leaves id -> "Profile 1" in the map |
| Scenarios.SubscriberReplaced | packages/devtools-frontend-lynx/front_end/core/sdk/CPUProfilerModel.ts:163-194 | after two starts only the second callback receives a delta, and a delta after stop is dropped |
| Scenarios.SnapshotWithoutReply | packages/devtools-frontend-lynx/front_end/core/sdk/CPUProfilerModel.ts:175-183 | with no reply the snapshot is timestamp 0 and no coverage |

## Left out

- Promises and agent failures: the values returned by the `invoke_*` calls, their rejection and their propagation to callers are not modelled. Until the reply is passed in, a call is only an entry in `agentCalls`.
- CPUProfiler.CPUProfilerModel.StopRecording: clearing the flag and handling the reply happen in one call. The interval between them, in which other calls may interleave, is not modelled.
- CPUProfiler.CPUProfilerModel.ConsoleProfileFinished: the event is published at once. The wait for the `profiler` module (`loadModulePromise`) and the reordering it can cause are not modelled; they depend on an external asynchronous gate.
- `Location.fromPayload`: location resolution is a foreign call. Published events carry the raw protocol location.
- The `runtimeModel()` and `debuggerModel()` getters, the `cpuProfilerModel` back-reference in published events, and `engineType`: they concern the debugger-model object graph, not this component's state.
- `registerProfilerDispatcher`, `SDKModel.register` and listener dispatch: these are framework plumbing. Listeners are replaced by the `published` log.
- Statistics payloads: only the category and the `type` field are recorded. The rest (`engineType`, `window.info`) depends on the environment.
- Localisation: the anonymous title is the English literal "Profile " followed by the decimal number. The i18n lookup is not modelled.
- CPU profiler counter width: `nextAnonymousConsoleProfileNumber` is an unbounded natural number. The source's counter is a JavaScript number, whose `++` stops changing it at 2^53, after which titles would repeat; the model does not capture that.
- Floating point: timestamps are reals, so a NaN timestamp (falsy in JavaScript, hence replaced by 0) cannot occur.
- Protocol payloads: `Profile` and `ScriptCoverage` keep only a few fields. The model never looks inside them.
- Callbacks: a callback is represented by its identity. Invoking it is the `deliveries` log; what the callback does is outside this component.

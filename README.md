# restart-on-rebuild, modelled in Dafny

This project models the `RestartOnRebuild` build plugin of
esbuild-restart-on-rebuild. The plugin ties one long-running child process,
`node <outfile>`, to the build. Every build start asks the running child to
terminate. Every successful build end starts a new child from the output
file. The first stop event of the host (`exit`, `SIGINT`, `SIGHUP`) removes
the plugin's stop handler, asks the child to terminate and, by default, exits
the host with code 0.

The plugin's closure state becomes the class `RestartOnRebuild.Coordinator`.
Its fields are the current child (`server`), the build timer (`started`), the
set of stop events the handler is registered on (`listening`), whether
`setup` registered the build hooks (`hooked`), and the accepted `outfile`
(`resultPath`). Each event is a method: plugin creation (the constructor),
`Setup`, `OnStart`, `OnEnd`, `Signal` (a stop event reaching the host) and
`ChildClosed` (a child's `close` event). What the plugin does to the outside
world is appended to a `trace` of `Effects.Effect` records. These are
`Kill(pid)`, `Spawn(pid, path)`, `PipeOutput(pid)` and `Exit(0)`, plus one
record per user callback. An absent callback records nothing. The clock value
and the pid of a newly spawned child are method parameters.

Files:

- `effects.dfy` (module `Effects`): the effect records and the trace
  properties. They are: the last spawned child, whether it has been asked to
  terminate since, every spawn preceded by a kill of the previous child, and
  the number of exits. Each property is defined by recursion on a prefix
  length and proved equal to its positional reading: the pid of the last
  `Spawn`, a `Kill` of that child after it, a settled prefix before each
  `Spawn`, and the number of positions holding an `Exit`.
- `restart_on_rebuild.dfy` (module `RestartOnRebuild`): the options and
  their defaults. It also has one function per handler giving the effects
  that handler records, with lemmas about them, and the `Coordinator` class.
  `Coordinator.Valid()` is the invariant every event keeps:
  - `server` is the last spawned child;
  - the stop handler is registered on all three events until its single run
    and on none afterwards;
  - at most one `Exit` has been recorded;
  - the build timer never exceeds the clock;
  - every `Spawn` follows a `Kill` of the previously spawned child, provided
    every build end so far came after a build start of its own. The ghost
    flag `ordered` records that proviso: plugin creation sets it, a build
    start keeps it and marks a build in progress, and a build end clears it
    only when no build was in progress.
- `scenarios.dfy` (module `Scenarios`): short runs of the coordinator, each
  with the exact trace it produces or, for symbolic options and pids, the
  trace properties it keeps.

Behaviour of the code that the model keeps:

- After a `SIGINT` or `SIGHUP` with `killNodeProcessOnInterrupt` false, the
  host keeps running and the build hooks stay registered, so later builds
  still kill and spawn children. Otherwise the host ends: `process.exit(0)`
  runs, or the stop event was `exit` itself. The model keeps `OnStart` and
  `OnEnd` callable after `Signal` in every case, including after an
  `Exit(0)` record (see "## Left out").
- A missing `outfile` makes `setup` throw. The stop handler was already
  installed when the plugin was created, so it stays installed
  (`Setup` leaves `listening` unchanged).
- A child's `close` event reports its code whether the child is current or
  superseded. `ChildClosed` accepts any child the plugin spawned and records
  the same thing for both; a child stays spawned however the trace grows
  (`Effects.SpawnedStays`).
- The duration reported at build end is `now - started`. Before any build
  start `started` is 0, so a build end without a build start reports the
  raw clock value. The model allows that case and does not reject it. The
  duration is non-negative because `OnStart` and `OnEnd`, the two events
  that carry a clock value, require it not to go backwards (`clock <= now`).
- A build start arriving before the previous build's end overwrites the
  timer. The model keeps this behaviour: `OnStart` always sets
  `started := now`.

## Model

| member | source | states |
|---|---|---|
| `RestartOnRebuild.DefaultTrue` | src/index.ts:26-27 | `redirectOutput` and `killNodeProcessOnInterrupt` are on unless explicitly set to false |
| `RestartOnRebuild.StartKillsFirst` | src/index.ts:71-77 | a build start records a kill request for the current child first, if there is one, then the `onRebuildStart` report; it never spawns or exits |
| `RestartOnRebuild.FailedBuildSpawnsNothing` | src/index.ts:82-85 | a build end with errors records only `onRebuildFailed(errors, ms)`, with exactly those errors; there is no spawn, no success report and no server-start report |
| `RestartOnRebuild.SuccessfulBuildOrder` | src/index.ts:87-89 | a build end without errors records exactly one spawn, of `node` on the output path; the `onRebuildEnd` report comes before it and the `onServerStart` report after it |
| `RestartOnRebuild.SuccessfulBuildShape` | src/index.ts:31-39 | around the one spawn of a successful build, only the success report comes before it, and only the server-start report and the output pipe come after it |
| `RestartOnRebuild.SuccessfulBuildReports` | src/index.ts:34-39 | each report and the output pipe of a successful build is present exactly when its callback is supplied or its flag is on; there is no failure report, kill or exit |
| `RestartOnRebuild.TeardownKillsThenExits` | src/index.ts:51-55 | teardown asks the current child, and only that child, to terminate, and does so first; it records `Exit(0)` exactly when `killNodeProcessOnInterrupt` is not false, last, and at most once |
| `RestartOnRebuild.Coordinator.constructor` | src/index.ts:58 | plugin creation registers the stop handler on `exit`, `SIGINT` and `SIGHUP`; there is no child, the trace is empty, no build is in progress and the history is ordered |
| `RestartOnRebuild.Coordinator.Setup` | src/index.ts:63-69 | `setup` throws the only-one-file error exactly when `outfile` is not a string and then registers no hooks; otherwise it keeps the path and resets the timer to 0; the stop handler stays installed either way |
| `RestartOnRebuild.Coordinator.OnStart` | src/index.ts:71-77 | a build start appends a kill of the current child, then the start report; it sets `started` to the clock value, keeps `server`, and marks a build in progress without changing whether the history is ordered |
| `RestartOnRebuild.Coordinator.OnEnd` | src/index.ts:79-90 | a build end reports `now - started`, which is non-negative; `server` is unchanged when the build failed and is the new child, now spawned, when it succeeded; no build is in progress afterwards; the history stays ordered exactly when it was ordered and a build was in progress, and then every spawn in the trace follows a kill of the previous child; in every case the trace keeps a kill before every spawn exactly when it had one and, for a successful build, the previous child had been asked to terminate; after a successful build the new child has not been asked to terminate |
| `RestartOnRebuild.Coordinator.StartServer` | src/index.ts:31-41 | `startServer` appends the spawn, then the server-start report, then the pipe when redirecting, and makes the new child current; the new child has not been asked to terminate, and the trace keeps a kill before every spawn exactly when it had one and the previous child had been asked to terminate |
| `RestartOnRebuild.Coordinator.ChildClosed` | src/index.ts:41 | a `close` event from any spawned child, current or superseded, only appends the `onServerClosed(code)` report |
| `RestartOnRebuild.Coordinator.Signal` | src/index.ts:49-58 | a stop event runs teardown only if the handler is still registered on it, after which it is registered on nothing; otherwise nothing changes; the trace never holds more than one `Exit` |
| `RestartOnRebuild.Coordinator.KillServer` | src/index.ts:48-56 | `killServer` unregisters itself from all three events, then appends a kill of the current child, then `Exit(0)` when configured |
| `RestartOnRebuild.Coordinator.RequestKill` | src/index.ts:72 | `server?.kill()` appends a kill of the current child, if any, after which the last spawned child has been asked to terminate |
| `Effects.LastSpawnedIsLastSpawn` | src/index.ts:29-32 | the child recorded as current is the pid of the last `Spawn`; there is none exactly when nothing was spawned |
| `Effects.KilledSinceIsPositional` | src/index.ts:72 | "killed since the last spawn" holds exactly when some `Kill(pid)` has no `Spawn` after it |
| `Effects.KillPrecedesEverySpawnIsPositional` | src/index.ts:71-90 | the recursive kill-before-spawn property holds exactly when the trace before each `Spawn` is settled, meaning the previous child was asked to terminate |
| `Effects.SettledIsPositional` | src/index.ts:72 | a prefix is settled exactly when the child of its last `Spawn`, if any, has a `Kill` after that spawn |
| `Effects.ExitCountIsPositional` | src/index.ts:53-55 | the exit count of a prefix is the number of its positions that hold an `Exit` |
| `Effects.SpawnedStays` | src/index.ts:41 | a child once spawned stays spawned however the trace grows, so its `close` listener can still fire |
| `Effects.AtMostOneExit` | src/index.ts:49-55 | an exit count of at most one means at most one position of the trace holds an `Exit` |
| `Effects.NoExitWhenCountZero` | src/index.ts:53-55 | an exit count of zero means the trace holds no `Exit` |
| `Scenarios.RestartScenario` | src/index.ts:71-90 | build 1 spawns child 7 from `/out/app.js`; the next build start asks child 7 to terminate at once |
| `Scenarios.FailedBuildScenario` | src/index.ts:82-85 | a build with errors `[e1, e2]` reports exactly `[e1, e2]` and spawns nothing |
| `Scenarios.MissingOutfileScenario` | src/index.ts:58-67 | without `outfile`, setup throws and registers no hooks, while the stop handler stays registered on all three events |
| `Scenarios.DoubleSignalScenario` | src/index.ts:48-58 | SIGINT then SIGHUP give one SIGTERM, and one exit only when `killNodeProcessOnInterrupt` is on |
| `Scenarios.SupersededCloseScenario` | src/index.ts:41 | after child `p1` is superseded by `p2`, the `close` of `p1` is accepted and reported last when `onServerClosed` is supplied, and `p2` stays the current child |
| `Scenarios.OverlappingBuildsScenario` | src/index.ts:71-90 | two build starts followed by two successful build ends spawn the second child while the first was never asked to terminate, so kill-before-spawn fails |
| `Scenarios.OrderedBuildsScenario` | src/index.ts:29-90 | under any options and child pids, a build, SIGINT, a failed build, a build and the new child's `close` leave a trace in which every spawn follows a kill of the previous child and there is at most one exit |

## Left out

- Process creation and signalling are opaque `Spawn`/`Kill` records. The
  caller supplies the pid. A spawn that fails is not modelled.
- When a child actually exits is not modelled, so neither is the window where
  an old and a new child both run. A `Kill` is a request and nothing confirms
  it.
- Stream piping of stdout/stderr (src/index.ts:36-39) is one `PipeOutput(pid)`
  record.
- OS signal delivery and `process.exit` are not modelled as real effects.
  A stop event is the `Signal` method. `process.exit(0)` is an `Exit(0)`
  record, and the model does not stop taking events after it. The `exit`
  event that `process.exit(0)` raises reaches a handler that is already
  unregistered. `Signal` shows that such a delivery changes nothing.
- Stop events with no handler left fall back to Node's default behaviour.
  That is outside this model.
- `Date.now()` is the `now` parameter. The model requires the clock to be
  monotone.
- The build engine's `Plugin`/`Message` types and `build.initialOptions` are
  reduced. A message keeps only its text. `outfile` is `Some(path)` when it is
  a string and `None` otherwise. The plugin's `name` field is not modelled.
- `setup` runs at most once per plugin instance (`Setup` requires `!hooked`).
  A plugin object reused by several builds is not modelled.
- User callbacks are only records. Callbacks that throw or re-enter the
  plugin are not modelled.
- The `{ kill }` object returned by `startServer` (src/index.ts:43-45) is
  never used and is not modelled.
- `RestartOnRebuild.Coordinator.OnEnd`: kill-before-spawn as an invariant is
  stated only while every build end has come after a build start of its own
  (`ordered`, which holds from plugin creation until a build end arrives with
  no build in progress). Such an unmatched build end can itself spawn with no
  kill of the previous child (`Scenarios.OverlappingBuildsScenario`). The
  property is conservative: a history that is no longer `ordered` can still
  keep it, and `OnEnd`'s exact step contract decides it for any run.

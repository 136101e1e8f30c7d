# haibu Spawner: a Dafny model

This project models the Spawner of haibu, the Node.js drone server. The Spawner takes an application's
repository and turns it into a carapace process supervised by a `forever` monitor. It answers its caller
through a single callback. The model covers:

- the Spawner's configuration defaults;
- `trySpawn`, which bootstraps the repository, runs `init` only when the source did not exist yet, and hands
  over to `spawn`;
- the launch options that `spawn` builds: the fixed base options, the `argv` contributions of the active
  plugins folded in key order, and the restart policy;
- the check that the start script exists;
- one spawn attempt as a state machine over the monitor's `stdout`, `stderr`, `error`, `start` and `exit`
  events and the hook's `*::carapace::port` event. The state is the closure's `responded` flag, the captured
  stderr lines and the start record, plus the listeners still armed, the drone output forwarded to haibu's
  log, and an append-only log of callback calls.

Files:

- `wrappers.dfy`: `Option`. `None` stands for `undefined`.
- `text.dfy`: JavaScript's `split('\n')`, the empty-line filter and `join('\n')`, with their round trips.
- `plugins.dfy`: the specification of the plugin fold: the resulting arguments and the resulting script.
- `attempt_model.dfy`: the attempt as pure functions (one per handler, plus the emitter's dispatch), and the
  lemmas over event sequences: at most one delivery, exactly one after a terminal event, the first terminal
  event wins, stderr is captured only until the response, and all output is forwarded.
- `spawner.dfy`: the `Spawner` class (constructor, `LaunchConfig`, `Spawn`), `TrySpawn`, and the `Attempt`
  class. `Attempt` has one method per handler, the stat callback `OnStat` and the dispatcher `Emit`. Each
  method is proved to change the state exactly as the matching function of `attempt_model.dfy` says.
- `shared_result.dfy`: two attempts in one process, with `result` shared as the source writes it and kept
  per attempt as the rest of the model does (see Findings).

Where the intended design and the code differ, the model follows the code:

- A `repo` that is not a `Repository` instance makes `spawn` throw at line 62, because `app` is undefined
  there. It is not reported as a configuration error. The model makes it a precondition of
  `SpawnerCore.Spawner.Spawn`.
- The start-script check only asks whether `fs.stat` succeeds. A directory passes it too; the code does not
  check for a regular file.
- Every attempt subscribes to the same hook pattern, `*::carapace::port`. The topic is not partitioned per
  attempt.
- The callback is called at most once, not exactly once. An attempt whose child never exits, errors or
  reports a port never answers. `ExactlyOnce` therefore requires a terminal event.
- When the start script is missing, `responded` stays false. Nothing can answer later, because no listener
  was ever armed.

## Model

| member | source | states |
|---|---|---|
| `SpawnerCore.Spawner.constructor` | lib/haibu/core/spawner.js:13-22 | `maxRestart` is copied as given, undefined included. `silent` is true only when given as true. `host` is never empty: a given non-empty host is kept, otherwise it is `127.0.0.1`. `minUptime` is the given value whenever one is defined, 0 included, and 2000 only when it is undefined. `appsDir` and `packageDir` fall back to the configured directories. |
| `SpawnerCore.TrySpawn` | lib/haibu/core/spawner.js:31-51 | A descriptor is first turned into a repository; a repository instance is bootstrapped first. Exactly one hand-off happens, and it is the last call. The hand-off is `spawn` exactly when bootstrap succeeded and the source existed or `init` succeeded. `spawn` gets the repository instance. A bootstrap error, or an `init` error, is passed to the callback unchanged. |
| `SpawnerCore.Callbacks` | lib/haibu/core/spawner.js:35-50 | What the bootstrap and `init` callbacks do is one or two calls. None of them is a bootstrap or a repository creation. `init` can only be the first of them, and it is called once when bootstrap reports that the source did not exist, never otherwise. |
| `SpawnerCore.TrySpawnBootstrapsOnce` | lib/haibu/core/spawner.js:31-35 | Bootstrap is called exactly once. It is the first call for a repository instance. For a descriptor, it comes right after the single repository creation, and no repository is created after it. |
| `SpawnerCore.TrySpawnInitsOnlyNewSource` | lib/haibu/core/spawner.js:35-49 | `init` runs only from the bootstrap callback, so it comes right after bootstrap. It is called once when bootstrap reports that the source did not exist, and never otherwise. |
| `SpawnerCore.Spawner.LaunchConfig` | lib/haibu/core/spawner.js:72-109 | The options are silent, use the repository's home directory and the app's environment, use the spawner's `minUptime`, and run the carapace command. The arguments are the plugin contributions in plugin order. The script is the last non-empty plugin script, or `repo.startScript` if no plugin sets one. `forever` is true exactly when `maxRestart` is undefined. `max` is set, to `maxRestart`, exactly when `maxRestart` is defined. |
| `SpawnerCore.Spawner.Spawn` | lib/haibu/core/spawner.js:59-116 | Only a Repository instance can be spawned. The new attempt carries the launch options above, the declared start script and the repository's `startScript`, which is the path the stat will check. Nothing is armed and nothing is delivered while the stat is pending. |
| `Plugins.LaunchScript` | lib/haibu/core/spawner.js:85-98 | The launch script is the start script when no plugin sets a non-empty script. Otherwise it is the script of the last plugin that sets one. |
| `Plugins.ContributedAppend` | lib/haibu/core/spawner.js:100-102 | Folding two runs of plugins gives the concatenation of their arguments. No contribution is dropped or replaced. |
| `Plugins.ContributionInPlace` | lib/haibu/core/spawner.js:85-104 | Each plugin's arguments appear whole in the final list, after every earlier plugin's arguments and before every later plugin's arguments. |
| `Plugins.Capable` | lib/haibu/core/spawner.js:87 | The plugins consulted are exactly those with an `argv` capability: every kept plugin has one and comes from the table, and every plugin of the table that has one is kept. |
| `Plugins.CapableAppend` | lib/haibu/core/spawner.js:85-87 | The filter keeps the original order: the capable plugins of two runs are those of the first run, followed by those of the second. |
| `Plugins.OnlyCapableConsulted` | lib/haibu/core/spawner.js:85-104 | Plugins without an `argv` capability change neither the arguments nor the script. |
| `Plugins.TwoPluginExample` | lib/haibu/core/spawner.js:85-104 | A first plugin adds `--a`. A second adds `--b` and names `alt.js`. The result is `--a --b`, in that order, with script `alt.js`. |
| `Text.Split` | lib/haibu/core/spawner.js:146 | `split('\n')` gives at least one piece, and no piece contains the separator. |
| `Text.JoinSplit` | lib/haibu/core/spawner.js:146 | Joining the pieces of a split with the separator gives back the original text. |
| `Text.SplitJoin` | lib/haibu/core/spawner.js:215 | Joining pieces that contain no separator, then splitting, gives back the pieces. |
| `Text.NonEmpty` | lib/haibu/core/spawner.js:146 | The filter keeps exactly the non-empty pieces: every kept piece is non-empty and comes from the input, and every non-empty piece of the input is kept. |
| `Text.NonEmptyAppend` | lib/haibu/core/spawner.js:146 | The filter keeps the order: filtering two runs of pieces gives the first run's non-empty pieces followed by the second's. |
| `Text.Lines` | lib/haibu/core/spawner.js:146 | Every captured line is non-empty and contains no line break. |
| `Text.LinesKeepText` | lib/haibu/core/spawner.js:146 | The captured lines of a chunk hold all of its characters except the line breaks, in order. |
| `Text.LinesOfJoin` | lib/haibu/core/spawner.js:215 | Lines joined with `'\n'` read back as the same lines, in the same order. |
| `Text.ConcatNonEmpty` | lib/haibu/core/spawner.js:146 | Dropping empty lines loses no text. |
| `Text.ConcatSplit` | lib/haibu/core/spawner.js:146 | The pieces of a split hold every character except the separators, in order. |
| `SpawnerCore.Attempt.constructor` | lib/haibu/core/spawner.js:59-68 | A new attempt has not responded. It has captured no stderr, has no start record, has nothing armed and has called the callback zero times. |
| `SpawnerCore.Attempt.OnStat` | lib/haibu/core/spawner.js:116-127 | The stat checks `repo.startScript`, not the plugin-chosen script: the attempt runs exactly when `repo.startScript` is among the existing paths. A missing `repo.startScript` delivers one `package.json error: can't find starting script: <declared start>` error, and no monitor is built. Otherwise the monitor is built from the plugin-chosen script, and every listener is armed. |
| `SpawnerCore.Attempt.OnStdout` | lib/haibu/core/spawner.js:133-135 | Stdout is forwarded to the log at info level. Nothing else changes. |
| `SpawnerCore.Attempt.OnStderr` | lib/haibu/core/spawner.js:141-148 | Every chunk is forwarded at error level. Its non-empty lines are appended to `stderr` only while the attempt has not responded. |
| `SpawnerCore.Attempt.OnError` | lib/haibu/core/spawner.js:154-166 | If the attempt has not responded: mark it responded, pass the monitor's error through unchanged, and disarm `exit` and the port listener. |
| `SpawnerCore.Attempt.OnCarapacePort` | lib/haibu/core/spawner.js:175-191 | If the attempt has not responded: mark it responded, deliver the start record plus socket `{host: spawner.host, port}`, and disarm `exit` and `error`. A port before `start` is excluded by precondition. |
| `SpawnerCore.Attempt.OnStart` | lib/haibu/core/spawner.js:198-204 | Records the monitor, its child and the start metadata, and never calls back. |
| `SpawnerCore.Attempt.OnExit` | lib/haibu/core/spawner.js:210-224 | If the attempt has not responded: mark it responded, deliver `Error spawning drone` with the captured lines joined by `'\n'`, and disarm `error` and the port listener. |
| `SpawnerCore.Attempt.Emit` | lib/haibu/core/spawner.js:229-235 | An event reaches its handler only while its listener is armed. `exit`, `error`, `start` and the port listener are removed before their handler runs. The attempt's invariant is kept. |
| `AttemptModel.DispatchKeepsConsistent` | lib/haibu/core/spawner.js:154-234 | Every delivered event keeps the invariant. A delivery once made never changes. |
| `AttemptModel.FirstTerminalTearsDown` | lib/haibu/core/spawner.js:154-224 | The first terminal handler responds with its outcome. It leaves `exit`, `error` and the port listener all disarmed, and `stdout` and `stderr` armed. |
| `AttemptModel.RunAppend` | lib/haibu/core/spawner.js:229-234 | Running a sequence of events is running its first part, then the rest. |
| `AttemptModel.RespondedIsFinal` | lib/haibu/core/spawner.js:145-223 | Once `responded` is true, no event clears it, adds a delivery or changes the captured stderr. |
| `AttemptModel.AtMostOnce` | lib/haibu/core/spawner.js:154-234 | For every sequence of events, the callback is called at most once, and the invariant holds throughout. |
| `AttemptModel.ExactlyOnce` | lib/haibu/core/spawner.js:154-234 | Once a running attempt has seen an `error`, `exit` or port event, the callback has been called exactly once. |
| `AttemptModel.NonTerminalPrefixWaits` | lib/haibu/core/spawner.js:133-148 | `stdout`, `stderr` and `start` events never answer a waiting attempt. |
| `AttemptModel.FirstTerminalWins` | lib/haibu/core/spawner.js:154-224 | The single delivery is the outcome of the first terminal event, from the state that event finds, whatever follows it. |
| `AttemptModel.ReadinessWinsOverLateExit` | lib/haibu/core/spawner.js:175-191 | A port reported before the exit yields the success outcome, and the late exit has no effect. |
| `AttemptModel.StderrRun` | lib/haibu/core/spawner.js:141-148 | While the attempt has not responded and listens to stderr, a run of stderr chunks is always deliverable. It changes the state only by appending the chunks' non-empty lines to `stderr` and the chunks, at error level, to the forwarded output. |
| `AttemptModel.StderrCaptured` | lib/haibu/core/spawner.js:141-148 | While the attempt waits, a stream of stderr chunks alone is always deliverable. The non-empty lines of each chunk are captured, in arrival order, and the attempt keeps waiting with its start record unchanged. |
| `AttemptModel.StderrDataOfChunks` | lib/haibu/core/spawner.js:141-148 | The stderr data of a stream of stderr chunks is exactly those chunks, so the stderr-only results are special cases of the general ones below. |
| `AttemptModel.CaptureAnyPrefix` | lib/haibu/core/spawner.js:133-148 | While the attempt waits, after any mix of stdout, stderr and `start` events, the captured lines are those already captured followed by the non-empty lines of the stderr chunks among the events, in arrival order. |
| `AttemptModel.StartGone` | lib/haibu/core/spawner.js:197-203 | Once the `start` listener has fired, no later non-terminal event changes the start record. |
| `AttemptModel.RecordAnyPrefix` | lib/haibu/core/spawner.js:197-203 | While the `start` listener is armed and nothing has started, the record after any non-terminal events is the one the first `start` among them carries, or none if there was no `start`. |
| `AttemptModel.OutputForwarded` | lib/haibu/core/spawner.js:133-143 | Every stdout and stderr chunk is forwarded to the log, in order, before and after the response. |
| `AttemptModel.PrematureExitCarriesStderr` | lib/haibu/core/spawner.js:133-216 | A child that exits before reporting a port, after any mix of stdout, stderr and `start` events, produces exactly one `Error spawning drone`. Its `stderr` text is exactly the non-empty lines of the stderr chunks, in arrival order, joined with `'\n'`, and it reads back as those lines. |
| `AttemptModel.SuccessCarriesStartRecord` | lib/haibu/core/spawner.js:175-203 | A port reported after any mix of stdout, stderr and `start` events is only possible once some `start` has come. The caller gets exactly one success: the first start's `{monitor, process: monitor.child, drone: data}` with socket `{host, port}`. |
| `AttemptModel.MissingScriptIsFinal` | lib/haibu/core/spawner.js:116-119 | A missing start script yields exactly one error, `package.json error: can't find starting script: ` followed by the declared start script. No listener is armed, and no later event has any effect. |
| `SharedResult.SharedResultCrossesAttempts` | lib/haibu/core/spawner.js:178-203 | As written, `result` is one global. If two attempts start and then the first reports its port, the first caller gets the second attempt's monitor. |
| `SharedResult.OwnEventsOnly` | lib/haibu/core/spawner.js:59-236 | With per-attempt state, each of two interleaved attempts ends exactly as its own events alone would leave it. |
| `SharedResult.OwnStartRecordDelivered` | lib/haibu/core/spawner.js:175-203 | With per-attempt `result`, the same interleaving answers the first caller with its own monitor. |

## Findings

| source | as written | input that shows it | evidently intended | confidence | as-written member | corrected member |
|---|---|---|---|---|---|---|
| lib/haibu/core/spawner.js:178-203 | `result` is assigned without being declared. It is therefore one global shared by every spawn attempt in the process. | Attempts A and B both running. A emits `start` (monitor mA), then B emits `start` (monitor mB), then A's carapace reports its port. A's caller receives mB and B's child process. | Each attempt keeps its own start record, declared beside `responded`, `stderr` and `error`. | not executed | `SharedResult.SharedResultCrossesAttempts` | `SharedResult.OwnStartRecordDelivered` |

The rest of the model keeps `result` per attempt (`AttemptModel.AttemptState.result`).

## Left out

- The `fs.stat` call: the filesystem is the set of existing paths passed to `OnStat`.
- Building and starting the `forever.Monitor`: only the events it emits are modelled. The `Running` phase stands for "monitor built from `script` and the launch options, then started".
- Resolving the carapace path through `require.resolve('haibu-carapace')`: `CarapaceCommand` is a fixed placeholder string.
- `haibu.emit` calls for `spawn:setup`, `plugin:argv` and `spawn:start`, and the `meta` passed with every emit: these are logging only. Drone stdout and stderr forwarding is kept as the `forwarded` log.
- The hook bus and its wildcard matching: the hook is modelled as the set of armed topics. Because every attempt uses the same pattern, one carapace's port reaches every pending attempt; with one attempt per state machine, the model does not capture this.
- Repository `bootstrap`, `init` and `haibu.repository.create`: their results are inputs to `TrySpawn`. The file list that `init` returns is ignored, as in the source.
- `haibu.config.get` for the apps and packages directories: the configured values are constructor arguments.
- `errState`: it is written and never read.
- Events raised synchronously by the caller's callback, before the handler removes the other listeners: the `responded` guard is modelled in every handler, but such nested calls are not.
- An event whose listener is not armed is modelled as having no effect. For `error`, Node's event emitter would throw instead; that is not modelled.
- Values of unexpected type: `null`, non-string or non-boolean options, a plugin `argv` that returns a non-object, and a non-array `argv` list. Options are `Option` values of their intended types. An explicit `minUptime: null`, which the source would keep, cannot be expressed.
- A timeout for attempts that never answer: the source has none.

# shp build run / shp buildrun cancel — a Dafny model

This project models two sub-commands of the Shipwright command-line client `shp`.

- `shp buildrun cancel <name>` fetches a BuildRun and refuses to cancel it when its `Succeeded`
  condition is set with a status other than `Unknown`. Otherwise it sends a one-operation JSON Patch
  (RFC 6902, section 4.3, "replace") that sets `/spec/state` to the cancel value. It reports success
  only when the patch call succeeds.
- `shp build run <name>` creates a BuildRun whose name the server generates from `<name>-`. With
  `--follow`, it waits for the BuildRun to name a TaskRun, checks what the watch returned, waits for
  that TaskRun to have a pod, checks the TaskRun, builds the Kubernetes clients and tails the pod's logs.

Every call into code outside these two files is an oracle. The oracles are the clients, `Get`,
`Patch`, `Create`, the two watch helpers, `params.ClientSet`, `pod.Tail`, the flag set's `Set` and
`flags.SanitizeBuildRunSpec`. Each is a function fixed when the environment (`Cli.Params`,
`Cli.FlagSet`) is built, so its answer depends only on its arguments. Each environment method appends
the call it makes to a ghost trace (`calls`). The contracts use that trace to say which effects
happened, in which order and with which arguments. `Cli.Select` picks the calls of one kind out of a
trace. `Cli.SelectAppend` (proved by induction) splits a selection over a trace made of two parts.

Layout:

- `shipwright.dfy` (module `Shipwright`): the API values the commands read. These are BuildRun,
  TaskRun, object metadata, the `Succeeded` condition as `Absent | Unknown | True | False`, `GetResult`,
  the watch result `Watched`, and `PatchOp`.
- `cli.dfy` (module `Cli`): command errors, output messages, the call trace, `Select`, and the
  classes `Params`, `IOStreams` and `FlagSet`.
- `cancel.dfy` (module `Buildrun`): `pkg/shp/cmd/buildrun/cancel.go`.
- `run.dfy` (module `Build`): `pkg/shp/cmd/build/run.go`.

Each command's `Run` is a method of its command class. It is proved equal to a pure specification
function (`Buildrun.CancelSpec`, `Build.RunSpec`) that gives its error, its calls and the messages it
writes. The properties are then proved about those functions.

## Model

| member | source | states |
|---|---|---|
| `Buildrun.HasFinished` | pkg/shp/cmd/buildrun/cancel.go:65-66 | A BuildRun counts as finished exactly when its `Succeeded` condition is present and not `Unknown`. An absent condition does not count as finished. |
| `Buildrun.CancelSpec` | pkg/shp/cmd/buildrun/cancel.go:54-92 | The clients are built first. A client failure is returned unchanged. A failed Get gives "failed to retrieve" naming the BuildRun. A finished BuildRun gives "already finished". Once the patch is sent, its error is returned unchanged. The result is nil exactly when the BuildRun was found unfinished and the patch succeeded. Exactly one "canceled" message naming the BuildRun is written on success, and none on any other path. |
| `Buildrun.CancelFetchesOnce` | pkg/shp/cmd/buildrun/cancel.go:55-63 | The BuildRun is fetched exactly once, by name in the command's namespace, and only after the clients were built. |
| `Buildrun.CancelPatchesOnlyWhenCancellable` | pkg/shp/cmd/buildrun/cancel.go:61-87 | When the BuildRun was found with its condition absent or `Unknown`, exactly one patch call is made. It goes to the fetched name and namespace, has the JSON Patch type, and carries the one-element document `replace /spec/state` with the cancel value. On every other path no patch is made. |
| `Buildrun.CancelCommand.Complete` | pkg/shp/cmd/buildrun/cancel.go:42-46 | Sets `name` to the first argument and always succeeds. |
| `Buildrun.CancelCommand.Validate` | pkg/shp/cmd/buildrun/cancel.go:49-51 | Always returns nil. |
| `Buildrun.CancelCommand.Run` | pkg/shp/cmd/buildrun/cancel.go:54-92 | Returns the error of `CancelSpec`, appends exactly its calls to the trace and writes exactly its messages. The trace gains one patch when the BuildRun is cancellable, and none otherwise. |
| `Build.Requested` | pkg/shp/cmd/build/run.go:64-69 | The submitted BuildRun has no name. Its GenerateName is the Build name followed by one dash. It carries the given spec. |
| `Build.TaskRunSpec` | pkg/shp/cmd/build/run.go:99-119 | The task-run wait comes first. A watch error is returned unchanged. A nil TaskRun is "task run watch function exitted unexpectedly". A TaskRun being deleted is "deleted before it terminated", naming it. A failed check ends the command with no clients and no tail. A client failure is "could not build k8s client". The result is nil exactly when the TaskRun passed its checks and the clients were built. |
| `Build.TaskRunTailsOnlyWhenReady` | pkg/shp/cmd/build/run.go:112-118 | The pod is tailed exactly once when the TaskRun passed its checks and the clients were built. The tail uses the TaskRun's `PodName`, the TaskRun name and the namespace the stage is given, which `FollowSpec` takes from the watched BuildRun. The pod is never tailed otherwise. |
| `Build.FollowSpec` | pkg/shp/cmd/build/run.go:82-102 | The BuildRun watch comes first. A watch error is returned unchanged. A nil BuildRun is "build run watch function exitted unexpectedly". Deletion is checked before the task-run reference: a BuildRun being deleted is "deleted before it terminated" even when its reference is set. A BuildRun without a reference is "terminated before task run ref was set". A failed check ends the command with no further call. Otherwise the next call waits on exactly `*LatestTaskRunRef`, and the error is that of the task-run stage. |
| `Build.FollowTailsOnlyWhenEveryCheckPasses` | pkg/shp/cmd/build/run.go:82-118 | Following tails exactly once when every BuildRun and TaskRun check passes and the clients are built. The tail uses the pod name, the latest task-run reference and the watched BuildRun's namespace. Following never tails otherwise. |
| `Build.FollowWaitsOnLatestRef` | pkg/shp/cmd/build/run.go:82-102 | The watches of following are the BuildRun watch, then a single TaskRun watch on `*LatestTaskRunRef`. The TaskRun watch happens only when the BuildRun passed its checks. |
| `Build.RunSpec` | pkg/shp/cmd/build/run.go:62-119 | The first call creates `Requested` of the Build name and the sanitized spec. A create failure is returned unchanged, with no further call and no message. Without follow, the result is nil, there is no further call, and one "created" message names the created BuildRun and the Build. With follow, the error is that of following, and the command writes no message of its own. |
| `Build.RunCreatesOnce` | pkg/shp/cmd/build/run.go:64-75 | On every path the BuildRun is created exactly once: the trace holds one create call, of `Requested` of the Build name and the sanitized spec, in the command's namespace. |
| `Build.FollowCreatesNothing` | pkg/shp/cmd/build/run.go:82-119 | Following the created BuildRun makes no create call. |
| `Build.TaskRunCreatesNothing` | pkg/shp/cmd/build/run.go:99-119 | The task-run stage makes no create call. |
| `Build.RunTailsOnlyWhenEveryCheckPasses` | pkg/shp/cmd/build/run.go:73-119 | Across the whole command, the pod is tailed exactly once when the command follows, the create succeeded and every check passes. The tail has the pod name, the latest task-run reference and the BuildRun's namespace. The pod is never tailed otherwise. When following, success is equivalent to reaching the tail. |
| `Build.RunWatchesOnlyWhenFollowing` | pkg/shp/cmd/build/run.go:73-102 | Nothing is watched without follow or after a failed create. With follow, the created BuildRun is watched, then only the TaskRun named by its latest reference. |
| `Build.RunCommand.Complete` | pkg/shp/cmd/build/run.go:42-51 | With exactly one argument, sets `buildName` to it and overwrites the build-reference flag with it. The flag set's error, if any, is returned. With any other count it returns "Build name is not informed" and changes neither `buildName` nor the flags. |
| `Build.RunCommand.Validate` | pkg/shp/cmd/build/run.go:54-59 | Returns the "name is not informed" error if and only if `buildName` is empty. |
| `Build.RunCommand.Run` | pkg/shp/cmd/build/run.go:62-119 | Returns the error of `RunSpec`, appends exactly its calls to the trace and writes exactly its messages. |

Behaviour to note:

- Any failure of `Get`, not only "not found", is reported as "failed to retrieve".
- The TaskRun stage checks only nil and deletion. It has no "terminated without a pod" case.
- A BuildRun whose `Succeeded` condition is absent can be cancelled.

## Left out

- Command construction with cobra (`cancelCmd`, `runCmd`, `Cmd`, the `--follow` flag registration and `flags.BuildRunSpecFromFlags`): library wiring. `Follow` and the BuildRun spec are plain fields of `RunCommand`.
- `Buildrun.CancelCommand.Complete` requires at least one argument. `cancel.go` indexes `args[0]`, and cobra's `ExactArgs(1)` guarantees exactly one.
- The `json.Marshal` call in `cancel.go` and its error branch (lines 82-84): marshalling three string fields cannot fail. The patch is modelled as a structured `PatchOp` list, not as bytes.
- How the server applies the patch, and whether the controller then cancels the run: external to the command.
- The bodies of `waitForBuildRunToHaveTaskRun`, `taskrun.WaitForTaskRunToHavePod`, `pod.Tail`, the clients and `flags.SanitizeBuildRunSpec`: they are not part of this model. Each is an oracle. The watch subscriptions, their ordering and their retries are not modelled. Neither is the log streaming or retry inside `pod.Tail`.
- Oracle answers depend only on the call's arguments. Neither command makes the same call twice, so this loses nothing.
- `context.Context` cancellation, which happens inside the oracles.
- `IOStreams.out` holds only the messages the commands write themselves. The watch helpers and `pod.Tail` also receive `ioStreams` (`run.go` lines 82, 102 and 118), and `pod.Tail` writes the pod's logs there. That output is not modelled.
- `run.go` line 73's `Create` returns only an error and fills the server-generated name into `br` in place; lines 78 and 82 read that name from `br`. The model's `createRun` oracle instead returns the stored object, and the model reads the name from it.
- `BuildRunSpecFromFlags` binds the `buildref-name` flag to the BuildRun spec, so the flag `Set` in `Complete` (`run.go` line 50) also rewrites the spec that `run.go` line 68 submits. The model keeps `FlagSet` and `RunCommand.buildRunSpec` apart: `Complete` records the `Set` call but leaves `buildRunSpec` unchanged.
- Exact message and error text. The model keeps which outcome is reported and which names it carries.
- The commented-out block at `run.go` lines 121-125.
- `BuildRunStateCancel` (`"BuildRunCanceled"`) and `BuildrefNameFlag` (`"buildref-name"`) are defined in the Shipwright API and `shp` flags packages, which are not part of this model. The model takes these values as given.

/** What the `shp` sub-commands reach outside themselves: the API clients, the watch helpers,
    log tailing, the command's flag set and the output stream. Every call into code that is not
    modelled is an oracle, a function fixed when the environment is built, and each call is
    recorded in a ghost trace so that contracts can say which effects happened. */
module Cli {
  import opened Shipwright

  /** Errors a sub-command returns. `Propagated` is an error passed back unchanged. */
  datatype CmdError =
    | Propagated(cause: Cause)
    | RetrieveFailed(buildRun: string, cause: Cause)  // "failed to retrieve BuildRun ..."
    | AlreadyFinished(buildRun: string)                // "... execution has already finished"
    | NameNotInformed                                  // "Build name is not informed"
    | NameEmpty                                        // "name is not informed"
    | BuildRunWatchExited                              // "build run watch function exitted unexpectedly"
    | BuildRunDeleted(buildRun: string)                // "... was deleted before it terminated"
    | NoTaskRunRef(buildRun: string)                   // "... terminated before task run ref was set"
    | TaskRunWatchExited                               // "task run watch function exitted unexpectedly"
    | TaskRunDeleted(taskRun: string)                  // "task run ... was deleted before it terminated"
    | KubeClientFailed(cause: Cause)                   // "could not build k8s client: ..."

  /** Messages written to the output stream. */
  datatype Message =
    | Canceled(buildRun: string)                // "BuildRun successfully canceled '...'"
    | Created(buildRun: string, build: string)  // "BuildRun created ... for build ..."

  /** One call into the environment. */
  datatype Call =
    | ShipwrightClients
    | GetRun(namespace: string, name: string)
    | PatchRun(namespace: string, name: string, patchType: PatchType, doc: seq<PatchOp>)
    | CreateRun(namespace: string, run: BuildRun)
    | WatchRun(name: string)
    | WatchTaskRun(name: string)
    | KubeClients
    | Tail(pod: string, taskRun: string, namespace: string)

  predicate IsGet(c: Call) { c.GetRun? }
  predicate IsPatch(c: Call) { c.PatchRun? }
  predicate IsCreate(c: Call) { c.CreateRun? }
  predicate IsWatch(c: Call) { c.WatchRun? || c.WatchTaskRun? }
  predicate IsTail(c: Call) { c.Tail? }

  /** What one run of a sub-command does: the error it returns (None for nil), the calls it
      makes in order, and the messages it writes. */
  datatype Outcome = Outcome(err: Option<CmdError>, calls: seq<Call>, written: seq<Message>)

  /** The calls of `calls` that satisfy `p`, in order. */
  function Select(calls: seq<Call>, p: Call -> bool): (r: seq<Call>)
    ensures |r| <= |calls|
    ensures forall c :: c in r ==> c in calls && p(c)
  {
    if calls == [] then []
    else (if p(calls[0]) then [calls[0]] else []) + Select(calls[1..], p)
  }

  /** Selecting from a trace made of two parts selects from each part in turn. */
  lemma {:induction false} SelectAppend(a: seq<Call>, b: seq<Call>, p: Call -> bool)
    ensures Select(a + b, p) == Select(a, p) + Select(b, p)
  {
    if a == [] {
      assert a + b == b;
    } else {
      assert (a + b)[0] == a[0];
      assert (a + b)[1..] == a[1..] + b;
      SelectAppend(a[1..], b, p);
    }
  }

  /** Selecting from a one-call trace keeps the call exactly when it satisfies `p`. */
  lemma SelectSingle(c: Call, p: Call -> bool)
    ensures Select([c], p) == if p(c) then [c] else []
  {
    assert [c][1..] == [];
  }

  /** The parameters object of a sub-command and every collaborator reached through it. */
  class Params {
    const namespace: string
    /** The error of `params.ShipwrightClientSet()`, if it fails. */
    const shipwrightClientsFailure: Option<Cause>
    /** The error of `params.ClientSet()`, if it fails. */
    const kubeClientsFailure: Option<Cause>
    const getRun: (string, string) -> GetResult
    /** The error of a Patch call, if it fails. */
    const patchRun: (string, string, PatchType, seq<PatchOp>) -> Option<Cause>
    /** Create returns the stored object, whose name the server generated. */
    const createRun: (string, BuildRun) -> Result<BuildRun>
    /** `waitForBuildRunToHaveTaskRun`, keyed by the BuildRun name. */
    const waitRun: string -> Watched<BuildRun>
    /** `taskrun.WaitForTaskRunToHavePod`, keyed by the TaskRun name. */
    const waitTaskRun: string -> Watched<TaskRun>
    /** `flags.SanitizeBuildRunSpec`. */
    const sanitize: BuildRunSpec -> BuildRunSpec

    ghost var calls: seq<Call>

    constructor (namespace: string, shipwrightClientsFailure: Option<Cause>, kubeClientsFailure: Option<Cause>,
                 getRun: (string, string) -> GetResult,
                 patchRun: (string, string, PatchType, seq<PatchOp>) -> Option<Cause>,
                 createRun: (string, BuildRun) -> Result<BuildRun>,
                 waitRun: string -> Watched<BuildRun>, waitTaskRun: string -> Watched<TaskRun>,
                 sanitize: BuildRunSpec -> BuildRunSpec)
      ensures this.namespace == namespace && this.shipwrightClientsFailure == shipwrightClientsFailure
      ensures this.kubeClientsFailure == kubeClientsFailure && this.getRun == getRun && this.patchRun == patchRun
      ensures this.createRun == createRun && this.waitRun == waitRun && this.waitTaskRun == waitTaskRun
      ensures this.sanitize == sanitize && calls == []
    {
      this.namespace := namespace;
      this.shipwrightClientsFailure := shipwrightClientsFailure;
      this.kubeClientsFailure := kubeClientsFailure;
      this.getRun := getRun;
      this.patchRun := patchRun;
      this.createRun := createRun;
      this.waitRun := waitRun;
      this.waitTaskRun := waitTaskRun;
      this.sanitize := sanitize;
      calls := [];
    }

    method ShipwrightClientSet() returns (err: Option<Cause>)
      modifies this
      ensures calls == old(calls) + [ShipwrightClients] && err == shipwrightClientsFailure
    {
      calls := calls + [ShipwrightClients];
      err := shipwrightClientsFailure;
    }

    method ClientSet() returns (err: Option<Cause>)
      modifies this
      ensures calls == old(calls) + [KubeClients] && err == kubeClientsFailure
    {
      calls := calls + [KubeClients];
      err := kubeClientsFailure;
    }

    /** Get of a BuildRun in this namespace. */
    method Get(name: string) returns (r: GetResult)
      modifies this
      ensures calls == old(calls) + [GetRun(namespace, name)] && r == getRun(namespace, name)
    {
      calls := calls + [GetRun(namespace, name)];
      r := getRun(namespace, name);
    }

    /** Patch of a BuildRun in this namespace. */
    method Patch(name: string, patchType: PatchType, doc: seq<PatchOp>) returns (err: Option<Cause>)
      modifies this
      ensures calls == old(calls) + [PatchRun(namespace, name, patchType, doc)]
      ensures err == patchRun(namespace, name, patchType, doc)
    {
      calls := calls + [PatchRun(namespace, name, patchType, doc)];
      err := patchRun(namespace, name, patchType, doc);
    }

    /** Create of a BuildRun in this namespace. */
    method Create(run: BuildRun) returns (r: Result<BuildRun>)
      modifies this
      ensures calls == old(calls) + [CreateRun(namespace, run)] && r == createRun(namespace, run)
    {
      calls := calls + [CreateRun(namespace, run)];
      r := createRun(namespace, run);
    }

    method WaitForBuildRunToHaveTaskRun(name: string) returns (r: Watched<BuildRun>)
      modifies this
      ensures calls == old(calls) + [WatchRun(name)] && r == waitRun(name)
    {
      calls := calls + [WatchRun(name)];
      r := waitRun(name);
    }

    method WaitForTaskRunToHavePod(name: string) returns (r: Watched<TaskRun>)
      modifies this
      ensures calls == old(calls) + [WatchTaskRun(name)] && r == waitTaskRun(name)
    {
      calls := calls + [WatchTaskRun(name)];
      r := waitTaskRun(name);
    }

    /** `pod.Tail`: streams the pod's logs; its output is not modelled. */
    method TailPod(pod: string, taskRun: string, namespace: string)
      modifies this
      ensures calls == old(calls) + [Tail(pod, taskRun, namespace)]
    {
      calls := calls + [Tail(pod, taskRun, namespace)];
    }
  }

  /** The output stream of the command. */
  class IOStreams {
    var out: seq<Message>

    constructor ()
      ensures out == []
    {
      out := [];
    }
  }

  /** The command's flag set. Setting a flag is an oracle that may fail; every attempt is recorded. */
  class FlagSet {
    const setFailure: (string, string) -> Option<Cause>
    ghost var assignments: seq<(string, string)>

    constructor (setFailure: (string, string) -> Option<Cause>)
      ensures this.setFailure == setFailure && assignments == []
    {
      this.setFailure := setFailure;
      assignments := [];
    }

    method Set(name: string, value: string) returns (err: Option<Cause>)
      modifies this
      ensures assignments == old(assignments) + [(name, value)] && err == setFailure(name, value)
    {
      assignments := assignments + [(name, value)];
      err := setFailure(name, value);
    }
  }
}

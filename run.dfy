/** The `shp build run <name>` sub-command: create a BuildRun for the Build and, when following,
    wait for its TaskRun and that TaskRun's pod, then tail the pod's logs. */
module Build {
  import opened Shipwright
  import opened Cli

  /** The flag bound to the BuildRun spec's build reference name (`flags.BuildrefNameFlag`). */
  const BuildrefNameFlag: string := "buildref-name"

  /** The BuildRun submitted for `buildName`: the server generates its name from the prefix
      `buildName` followed by a dash. */
  function Requested(buildName: string, spec: BuildRunSpec): (br: BuildRun)
    ensures br.meta.name == "" && br.spec == spec
    ensures |br.meta.generateName| == |buildName| + 1
    ensures br.meta.generateName[..|buildName|] == buildName && br.meta.generateName[|buildName|] == '-'
  {
    BuildRun(ObjectMeta("", buildName + "-", "", false), spec, BuildRunStatus(Absent, None))
  }

  // ----- the task-run stage: run.go lines 99 to 119 -----

  /** The watched TaskRun is there and is not being deleted. */
  predicate TaskRunReady(p: Params, taskRunName: string)
  {
    p.waitTaskRun(taskRunName).Returned? && p.waitTaskRun(taskRunName).obj.Some? &&
    !p.waitTaskRun(taskRunName).obj.value.meta.deleting
  }

  /** Waiting on the TaskRun `taskRunName`, checking it, building the clients and tailing its pod,
      whose logs are looked up in `namespace`. */
  function TaskRunSpec(p: Params, taskRunName: string, namespace: string): (r: Outcome)
    ensures r.calls != [] && r.calls[0] == WatchTaskRun(taskRunName) && r.written == []
    ensures p.waitTaskRun(taskRunName).WatchFailed? ==> r.err == Some(Propagated(p.waitTaskRun(taskRunName).cause))
    ensures p.waitTaskRun(taskRunName) == Returned(None) ==> r.err == Some(TaskRunWatchExited)
    ensures (p.waitTaskRun(taskRunName).Returned? && p.waitTaskRun(taskRunName).obj.Some? &&
             p.waitTaskRun(taskRunName).obj.value.meta.deleting) ==>
              r.err == Some(TaskRunDeleted(p.waitTaskRun(taskRunName).obj.value.meta.name))
    ensures !TaskRunReady(p, taskRunName) ==> r.calls == [WatchTaskRun(taskRunName)]
    ensures TaskRunReady(p, taskRunName) && p.kubeClientsFailure.Some? ==>
              r.err == Some(KubeClientFailed(p.kubeClientsFailure.value))
    ensures r.err.None? <==> TaskRunReady(p, taskRunName) && p.kubeClientsFailure.None?
  {
    var watch := [WatchTaskRun(taskRunName)];
    match p.waitTaskRun(taskRunName)
    case WatchFailed(cause) => Outcome(Some(Propagated(cause)), watch, [])
    case Returned(None) => Outcome(Some(TaskRunWatchExited), watch, [])
    case Returned(Some(tr)) =>
      if tr.meta.deleting then
        Outcome(Some(TaskRunDeleted(tr.meta.name)), watch, [])
      else if p.kubeClientsFailure.Some? then
        Outcome(Some(KubeClientFailed(p.kubeClientsFailure.value)), watch + [KubeClients], [])
      else
        Outcome(None, watch + [KubeClients] + [Tail(tr.podName, taskRunName, namespace)], [])
  }

  /** The pod is tailed exactly once, with the TaskRun's pod name, the TaskRun name and the given
      namespace, when the TaskRun passed its checks and the clients were built; never otherwise. */
  lemma TaskRunTailsOnlyWhenReady(p: Params, taskRunName: string, namespace: string)
    ensures Select(TaskRunSpec(p, taskRunName, namespace).calls, IsTail) ==
            if TaskRunReady(p, taskRunName) && p.kubeClientsFailure.None?
            then [Tail(p.waitTaskRun(taskRunName).obj.value.podName, taskRunName, namespace)]
            else []
  {
    var watch := WatchTaskRun(taskRunName);
    SelectSingle(watch, IsTail);
    if TaskRunReady(p, taskRunName) {
      var tail := Tail(p.waitTaskRun(taskRunName).obj.value.podName, taskRunName, namespace);
      SelectSingle(KubeClients, IsTail);
      SelectSingle(tail, IsTail);
      SelectAppend([watch], [KubeClients], IsTail);
      SelectAppend([watch] + [KubeClients], [tail], IsTail);
    }
  }

  // ----- the BuildRun stage: run.go lines 82 to 97 -----

  /** The watched BuildRun is there, is not being deleted and names its latest TaskRun. */
  predicate RunReady(p: Params, name: string)
  {
    p.waitRun(name).Returned? && p.waitRun(name).obj.Some? &&
    !p.waitRun(name).obj.value.meta.deleting && p.waitRun(name).obj.value.status.latestTaskRunRef.Some?
  }

  /** The BuildRun returned by the watch, once it passed its checks. */
  function FollowedRun(p: Params, name: string): (r: BuildRun)
    requires RunReady(p, name)
  {
    p.waitRun(name).obj.value
  }

  /** `*br.Status.LatestTaskRunRef` of the followed BuildRun. */
  function LatestRef(p: Params, name: string): (r: string)
    requires RunReady(p, name)
  {
    FollowedRun(p, name).status.latestTaskRunRef.value
  }

  /** Following the created BuildRun `name`: wait for it to have a TaskRun, check what the watch
      returned and go on with the TaskRun it names. */
  function FollowSpec(p: Params, name: string): (r: Outcome)
    ensures r.calls != [] && r.calls[0] == WatchRun(name) && r.written == []
    ensures p.waitRun(name).WatchFailed? ==> r.err == Some(Propagated(p.waitRun(name).cause))
    ensures p.waitRun(name) == Returned(None) ==> r.err == Some(BuildRunWatchExited)
    // deletion is checked first, whatever the task-run reference
    ensures (p.waitRun(name).Returned? && p.waitRun(name).obj.Some? && p.waitRun(name).obj.value.meta.deleting) ==>
              r.err == Some(BuildRunDeleted(p.waitRun(name).obj.value.meta.name))
    // then the task-run reference
    ensures (p.waitRun(name).Returned? && p.waitRun(name).obj.Some? && !p.waitRun(name).obj.value.meta.deleting &&
             p.waitRun(name).obj.value.status.latestTaskRunRef.None?) ==>
              r.err == Some(NoTaskRunRef(p.waitRun(name).obj.value.meta.name))
    // a failed check ends the command: no task-run wait, no clients, no tail
    ensures !RunReady(p, name) ==> r.calls == [WatchRun(name)]
    // the task-run stage waits on exactly the latest task-run reference
    ensures RunReady(p, name) ==> |r.calls| > 1 && r.calls[1] == WatchTaskRun(LatestRef(p, name))
    ensures RunReady(p, name) ==> r.err == TaskRunSpec(p, LatestRef(p, name), FollowedRun(p, name).meta.namespace).err
  {
    var watch := [WatchRun(name)];
    match p.waitRun(name)
    case WatchFailed(cause) => Outcome(Some(Propagated(cause)), watch, [])
    case Returned(None) => Outcome(Some(BuildRunWatchExited), watch, [])
    case Returned(Some(br)) =>
      if br.meta.deleting then
        Outcome(Some(BuildRunDeleted(br.meta.name)), watch, [])
      else if br.status.latestTaskRunRef.None? then
        Outcome(Some(NoTaskRunRef(br.meta.name)), watch, [])
      else
        var t := TaskRunSpec(p, br.status.latestTaskRunRef.value, br.meta.namespace);
        Outcome(t.err, watch + t.calls, t.written)
  }

  /** Every check of the follow path passes and the clients are built. */
  predicate ReachesTail(p: Params, name: string)
  {
    RunReady(p, name) && TaskRunReady(p, LatestRef(p, name)) && p.kubeClientsFailure.None?
  }

  /** The tail call of a follow path on which every check passes. */
  function TailCall(p: Params, name: string): (r: Call)
    requires ReachesTail(p, name)
  {
    Tail(p.waitTaskRun(LatestRef(p, name)).obj.value.podName, LatestRef(p, name), FollowedRun(p, name).meta.namespace)
  }

  /** Following tails the pod exactly once, with the TaskRun's pod, the latest task-run reference and
      the BuildRun's namespace, when every check passes; it never tails otherwise. */
  lemma FollowTailsOnlyWhenEveryCheckPasses(p: Params, name: string)
    ensures Select(FollowSpec(p, name).calls, IsTail) == if ReachesTail(p, name) then [TailCall(p, name)] else []
  {
    SelectSingle(WatchRun(name), IsTail);
    if RunReady(p, name) {
      var br := FollowedRun(p, name);
      TaskRunTailsOnlyWhenReady(p, LatestRef(p, name), br.meta.namespace);
      SelectAppend([WatchRun(name)], TaskRunSpec(p, LatestRef(p, name), br.meta.namespace).calls, IsTail);
    }
  }

  /** Following waits on the created BuildRun and then, only if it passed its checks, on the TaskRun
      its latest task-run reference names. */
  lemma FollowWaitsOnLatestRef(p: Params, name: string)
    ensures Select(FollowSpec(p, name).calls, IsWatch) ==
            [WatchRun(name)] + if RunReady(p, name) then [WatchTaskRun(LatestRef(p, name))] else []
  {
    SelectSingle(WatchRun(name), IsWatch);
    if RunReady(p, name) {
      var ref, ns := LatestRef(p, name), FollowedRun(p, name).meta.namespace;
      var t := TaskRunSpec(p, ref, ns);
      SelectAppend([WatchRun(name)], t.calls, IsWatch);
      SelectSingle(WatchTaskRun(ref), IsWatch);
      if TaskRunReady(p, ref) {
        var tail := Tail(p.waitTaskRun(ref).obj.value.podName, ref, ns);
        SelectSingle(KubeClients, IsWatch);
        SelectAppend([WatchTaskRun(ref)], [KubeClients], IsWatch);
        if p.kubeClientsFailure.None? {
          SelectSingle(tail, IsWatch);
          SelectAppend([WatchTaskRun(ref)] + [KubeClients], [tail], IsWatch);
        }
      }
    }
  }

  // ----- the whole command: run.go lines 62 to 119 -----

  /** What `RunCommand.Run` does for the Build `buildName`, the flags' spec `spec` and `follow`. */
  function RunSpec(p: Params, buildName: string, spec: BuildRunSpec, follow: bool): (r: Outcome)
    // exactly one BuildRun is submitted first, with the sanitized spec
    ensures r.calls != [] && r.calls[0] == CreateRun(p.namespace, Requested(buildName, p.sanitize(spec)))
    ensures var created := p.createRun(p.namespace, Requested(buildName, p.sanitize(spec)));
            && (created.Err? ==> r.err == Some(Propagated(created.cause)) && |r.calls| == 1 && r.written == [])
            && (created.Ok? && !follow ==> r.err == None && |r.calls| == 1 && r.written == [Created(created.value.meta.name, buildName)])
            && (created.Ok? && follow ==> r.err == FollowSpec(p, created.value.meta.name).err && r.written == [])
  {
    var submitted := Requested(buildName, p.sanitize(spec));
    var create := [CreateRun(p.namespace, submitted)];
    match p.createRun(p.namespace, submitted)
    case Err(cause) => Outcome(Some(Propagated(cause)), create, [])
    case Ok(created) =>
      if !follow then
        Outcome(None, create, [Created(created.meta.name, buildName)])
      else
        var f := FollowSpec(p, created.meta.name);
        Outcome(f.err, create + f.calls, f.written)
  }

  /** The created BuildRun is followed when and only when `follow` is set and the create succeeded. */
  predicate Follows(p: Params, buildName: string, spec: BuildRunSpec, follow: bool)
  {
    follow && p.createRun(p.namespace, Requested(buildName, p.sanitize(spec))).Ok?
  }

  /** The name the server gave the created BuildRun. */
  function CreatedName(p: Params, buildName: string, spec: BuildRunSpec): (r: string)
    requires p.createRun(p.namespace, Requested(buildName, p.sanitize(spec))).Ok?
  {
    p.createRun(p.namespace, Requested(buildName, p.sanitize(spec))).value.meta.name
  }

  /** `Run` tails exactly once, and reports success, when it follows and every check passes; it never
      tails otherwise. */
  lemma RunTailsOnlyWhenEveryCheckPasses(p: Params, buildName: string, spec: BuildRunSpec, follow: bool)
    ensures var r := RunSpec(p, buildName, spec, follow);
            Select(r.calls, IsTail) ==
              if Follows(p, buildName, spec, follow) && ReachesTail(p, CreatedName(p, buildName, spec))
              then [TailCall(p, CreatedName(p, buildName, spec))]
              else []
    ensures Follows(p, buildName, spec, follow) ==>
              (RunSpec(p, buildName, spec, follow).err.None? <==> ReachesTail(p, CreatedName(p, buildName, spec)))
  {
    var submitted := Requested(buildName, p.sanitize(spec));
    SelectSingle(CreateRun(p.namespace, submitted), IsTail);
    if Follows(p, buildName, spec, follow) {
      var name := CreatedName(p, buildName, spec);
      FollowTailsOnlyWhenEveryCheckPasses(p, name);
      SelectAppend([CreateRun(p.namespace, submitted)], FollowSpec(p, name).calls, IsTail);
      if RunReady(p, name) {
        assert FollowSpec(p, name).err == TaskRunSpec(p, LatestRef(p, name), FollowedRun(p, name).meta.namespace).err;
      }
    }
  }

  /** Without following, and when the create fails, nothing is watched; when following, the
      watches are exactly those of the follow path. */
  lemma RunWatchesOnlyWhenFollowing(p: Params, buildName: string, spec: BuildRunSpec, follow: bool)
    ensures Select(RunSpec(p, buildName, spec, follow).calls, IsWatch) ==
            if Follows(p, buildName, spec, follow)
            then [WatchRun(CreatedName(p, buildName, spec))] +
                 (if RunReady(p, CreatedName(p, buildName, spec))
                  then [WatchTaskRun(LatestRef(p, CreatedName(p, buildName, spec)))] else [])
            else []
  {
    var submitted := Requested(buildName, p.sanitize(spec));
    SelectSingle(CreateRun(p.namespace, submitted), IsWatch);
    if Follows(p, buildName, spec, follow) {
      var name := CreatedName(p, buildName, spec);
      FollowWaitsOnLatestRef(p, name);
      SelectAppend([CreateRun(p.namespace, submitted)], FollowSpec(p, name).calls, IsWatch);
    }
  }

  /** The task-run stage creates nothing. */
  lemma TaskRunCreatesNothing(p: Params, taskRunName: string, namespace: string)
    ensures Select(TaskRunSpec(p, taskRunName, namespace).calls, IsCreate) == []
  {
    var watch := WatchTaskRun(taskRunName);
    SelectSingle(watch, IsCreate);
    if TaskRunReady(p, taskRunName) {
      var tail := Tail(p.waitTaskRun(taskRunName).obj.value.podName, taskRunName, namespace);
      SelectSingle(KubeClients, IsCreate);
      SelectSingle(tail, IsCreate);
      SelectAppend([watch], [KubeClients], IsCreate);
      SelectAppend([watch] + [KubeClients], [tail], IsCreate);
    }
  }

  /** Following creates nothing. */
  lemma FollowCreatesNothing(p: Params, name: string)
    ensures Select(FollowSpec(p, name).calls, IsCreate) == []
  {
    SelectSingle(WatchRun(name), IsCreate);
    if RunReady(p, name) {
      var ref, ns := LatestRef(p, name), FollowedRun(p, name).meta.namespace;
      TaskRunCreatesNothing(p, ref, ns);
      SelectAppend([WatchRun(name)], TaskRunSpec(p, ref, ns).calls, IsCreate);
    }
  }

  /** The BuildRun is submitted exactly once per invocation, with the sanitized spec, on every path. */
  lemma RunCreatesOnce(p: Params, buildName: string, spec: BuildRunSpec, follow: bool)
    ensures Select(RunSpec(p, buildName, spec, follow).calls, IsCreate) ==
            [CreateRun(p.namespace, Requested(buildName, p.sanitize(spec)))]
  {
    var create := CreateRun(p.namespace, Requested(buildName, p.sanitize(spec)));
    SelectSingle(create, IsCreate);
    if Follows(p, buildName, spec, follow) {
      var name := CreatedName(p, buildName, spec);
      FollowCreatesNothing(p, name);
      SelectAppend([create], FollowSpec(p, name).calls, IsCreate);
    }
  }

  /** The state of the sub-command. */
  class RunCommand {
    var buildName: string
    var buildRunSpec: BuildRunSpec
    var follow: bool

    /** Takes the Build name from the arguments, which must be exactly one, and overwrites the
        build-reference flag with it. */
    method Complete(flags: FlagSet, args: seq<string>) returns (err: Option<CmdError>)
      modifies this`buildName, flags
      ensures |args| == 1 ==>
                && buildName == args[0]
                && flags.assignments == old(flags.assignments) + [(BuildrefNameFlag, args[0])]
                && err == (var e := flags.setFailure(BuildrefNameFlag, args[0]); if e.Some? then Some(Propagated(e.value)) else None)
      ensures |args| != 1 ==>
                buildName == old(buildName) && flags.assignments == old(flags.assignments) && err == Some(NameNotInformed)
    {
      if |args| == 1 {
        buildName := args[0];
      } else {
        return Some(NameNotInformed);
      }
      var e := flags.Set(BuildrefNameFlag, buildName);
      err := if e.Some? then Some(Propagated(e.value)) else None;
    }

    /** The Build name must not be empty. */
    function Validate(): (err: Option<CmdError>)
      reads this
      ensures err.Some? <==> buildName == ""
      ensures err.Some? ==> err.value == NameEmpty
    {
      if buildName == "" then Some(NameEmpty) else None
    }

    /** Creates the BuildRun and, when following, tails the logs of its pod. */
    method Run(p: Params, streams: IOStreams) returns (err: Option<CmdError>)
      modifies p, streams
      ensures var o := RunSpec(p, buildName, buildRunSpec, follow);
              err == o.err && p.calls == old(p.calls) + o.calls && streams.out == old(streams.out) + o.written
    {
      var br := Requested(buildName, p.sanitize(buildRunSpec));
      var created := p.Create(br);
      if created.Err? {
        return Some(Propagated(created.cause));
      }
      br := created.value;
      if !follow {
        streams.out := streams.out + [Created(br.meta.name, buildName)];
        return None;
      }

      var watched := p.WaitForBuildRunToHaveTaskRun(br.meta.name);
      if watched.WatchFailed? {
        return Some(Propagated(watched.cause));
      }
      if watched.obj.None? {
        return Some(BuildRunWatchExited);
      }
      br := watched.obj.value;
      if br.meta.deleting {
        return Some(BuildRunDeleted(br.meta.name));
      }
      if br.status.latestTaskRunRef.None? {
        return Some(NoTaskRunRef(br.meta.name));
      }

      var taskRunName := br.status.latestTaskRunRef.value;
      var taskRun := p.WaitForTaskRunToHavePod(taskRunName);
      if taskRun.WatchFailed? {
        return Some(Propagated(taskRun.cause));
      }
      if taskRun.obj.None? {
        return Some(TaskRunWatchExited);
      }
      var tr := taskRun.obj.value;
      if tr.meta.deleting {
        return Some(TaskRunDeleted(tr.meta.name));
      }
      var podName := tr.podName;

      var kubeErr := p.ClientSet();
      if kubeErr.Some? {
        return Some(KubeClientFailed(kubeErr.value));
      }
      p.TailPod(podName, taskRunName, br.meta.namespace);
      return None;
    }
  }
}

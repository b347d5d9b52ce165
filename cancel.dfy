/** The `shp buildrun cancel <name>` sub-command: fetch the BuildRun, refuse when it has already
    finished, otherwise ask the controller to cancel it with a one-operation JSON Patch. */
module Buildrun {
  import opened Shipwright
  import opened Cli

  /** A BuildRun has finished when its `Succeeded` condition is set with any status but Unknown. */
  function HasFinished(status: ConditionStatus): (r: bool)
    ensures r <==> status != Absent && status != Unknown
  {
    match status
    case True | False => true
    case Absent | Unknown => false
  }

  /** The patch document: a single RFC 6902 "replace" (section 4.3) of the requested state. */
  const CancelPatch: seq<PatchOp> := [PatchOp("replace", "/spec/state", BuildRunStateCancel)]

  /** Cancel goes as far as the patch: the clients were built, the BuildRun was found and it has
      not finished. */
  predicate Cancellable(p: Params, name: string)
  {
    && p.shipwrightClientsFailure.None?
    && p.getRun(p.namespace, name).Found?
    && !HasFinished(p.getRun(p.namespace, name).run.status.succeeded)
  }

  /** What `CancelCommand.Run` does for the BuildRun `name` in the environment `p`. */
  function CancelSpec(p: Params, name: string): (r: Outcome)
    // the clients are built first
    ensures r.calls != [] && r.calls[0] == ShipwrightClients
    // the error of each path
    ensures p.shipwrightClientsFailure.Some? ==> r.err == Some(Propagated(p.shipwrightClientsFailure.value))
    ensures p.shipwrightClientsFailure.None? && p.getRun(p.namespace, name).NotFound? ==>
              r.err == Some(RetrieveFailed(name, p.getRun(p.namespace, name).cause))
    ensures (p.shipwrightClientsFailure.None? && p.getRun(p.namespace, name).Found? &&
             HasFinished(p.getRun(p.namespace, name).run.status.succeeded)) ==> r.err == Some(AlreadyFinished(name))
    ensures Cancellable(p, name) ==>
              r.err == (var e := p.patchRun(p.namespace, name, JSONPatch, CancelPatch);
                        if e.Some? then Some(Propagated(e.value)) else None)
    // success is reported once, naming the BuildRun, and only when the patch succeeded
    ensures r.err.None? <==> Cancellable(p, name) && p.patchRun(p.namespace, name, JSONPatch, CancelPatch).None?
    ensures r.written == if r.err.None? then [Canceled(name)] else []
  {
    if p.shipwrightClientsFailure.Some? then
      Outcome(Some(Propagated(p.shipwrightClientsFailure.value)), [ShipwrightClients], [])
    else
      var fetched := [ShipwrightClients] + [GetRun(p.namespace, name)];
      match p.getRun(p.namespace, name)
      case NotFound(cause) => Outcome(Some(RetrieveFailed(name, cause)), fetched, [])
      case Found(run) =>
        if HasFinished(run.status.succeeded) then
          Outcome(Some(AlreadyFinished(name)), fetched, [])
        else
          var patched := fetched + [PatchRun(p.namespace, name, JSONPatch, CancelPatch)];
          match p.patchRun(p.namespace, name, JSONPatch, CancelPatch)
          case Some(cause) => Outcome(Some(Propagated(cause)), patched, [])
          case None => Outcome(None, patched, [Canceled(name)])
  }

  /** The BuildRun is fetched once, by name in the command's namespace, once the clients are built. */
  lemma CancelFetchesOnce(p: Params, name: string)
    ensures Select(CancelSpec(p, name).calls, IsGet) ==
            if p.shipwrightClientsFailure.None? then [GetRun(p.namespace, name)] else []
  {
    var get := GetRun(p.namespace, name);
    var patch := PatchRun(p.namespace, name, JSONPatch, CancelPatch);
    SelectSingle(ShipwrightClients, IsGet);
    SelectSingle(get, IsGet);
    SelectSingle(patch, IsGet);
    SelectAppend([ShipwrightClients], [get], IsGet);
    SelectAppend([ShipwrightClients] + [get], [patch], IsGet);
  }

  /** Exactly one patch is issued, to the fetched name and namespace and carrying `CancelPatch`,
      when the BuildRun was found unfinished; no patch is issued on any other path. */
  lemma CancelPatchesOnlyWhenCancellable(p: Params, name: string)
    ensures Select(CancelSpec(p, name).calls, IsPatch) ==
            if Cancellable(p, name) then [PatchRun(p.namespace, name, JSONPatch, CancelPatch)] else []
  {
    var get := GetRun(p.namespace, name);
    var patch := PatchRun(p.namespace, name, JSONPatch, CancelPatch);
    SelectSingle(ShipwrightClients, IsPatch);
    SelectSingle(get, IsPatch);
    SelectSingle(patch, IsPatch);
    SelectAppend([ShipwrightClients], [get], IsPatch);
    SelectAppend([ShipwrightClients] + [get], [patch], IsPatch);
  }

  /** The state of the sub-command: the name of the BuildRun to cancel. */
  class CancelCommand {
    var name: string

    /** Takes the BuildRun name from the first argument (the command accepts exactly one). */
    method Complete(args: seq<string>) returns (err: Option<CmdError>)
      requires |args| > 0
      modifies this
      ensures name == args[0] && err == None
    {
      name := args[0];
      err := None;
    }

    /** There is nothing to validate. */
    function Validate(): (err: Option<CmdError>)
      ensures err.None?
    {
      None
    }

    /** Cancels the BuildRun `name`. */
    method Run(p: Params, streams: IOStreams) returns (err: Option<CmdError>)
      modifies p, streams
      ensures var o := CancelSpec(p, name);
              err == o.err && p.calls == old(p.calls) + o.calls && streams.out == old(streams.out) + o.written
      // exactly one patch is added to the trace when the guards pass, none otherwise
      ensures Select(p.calls, IsPatch) ==
              Select(old(p.calls), IsPatch) + if Cancellable(p, name) then [PatchRun(p.namespace, name, JSONPatch, CancelPatch)] else []
    {
      ghost var before := p.calls;
      var clientsErr := p.ShipwrightClientSet();
      if clientsErr.Some? {
        err := Some(Propagated(clientsErr.value));
      } else {
        var got := p.Get(name);
        if got.NotFound? {
          err := Some(RetrieveFailed(name, got.cause));
        } else if HasFinished(got.run.status.succeeded) {
          err := Some(AlreadyFinished(name));
        } else {
          var patchErr := p.Patch(name, JSONPatch, CancelPatch);
          if patchErr.Some? {
            err := Some(Propagated(patchErr.value));
          } else {
            streams.out := streams.out + [Canceled(name)];
            err := None;
          }
        }
      }
      assert p.calls == before + CancelSpec(p, name).calls;
      SelectAppend(before, CancelSpec(p, name).calls, IsPatch);
      CancelPatchesOnlyWhenCancellable(p, name);
    }
  }
}

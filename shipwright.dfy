/** Values of the Shipwright and Kubernetes API objects that the `shp` commands read and write.
    Only the fields the two commands look at are kept; everything else is an opaque payload. */
module Shipwright {

  datatype Option<T> = None | Some(value: T)

  /** The underlying error value of a failed API call, kept opaque. */
  datatype Cause = Cause(message: string)

  /** A result that either carries a value or the cause of the failure. */
  datatype Result<T> = Ok(value: T) | Err(cause: Cause)

  /** Status of the `Succeeded` condition of a BuildRun; `Absent` when the condition is not set. */
  datatype ConditionStatus = Absent | Unknown | True | False

  /** Object metadata: `deleting` stands for a non-nil DeletionTimestamp. */
  datatype ObjectMeta = ObjectMeta(name: string, generateName: string, namespace: string, deleting: bool)

  /** The BuildRun spec built from the command-line flags, opaque to the commands. */
  datatype BuildRunSpec = BuildRunSpec(payload: string)

  datatype BuildRunStatus = BuildRunStatus(succeeded: ConditionStatus, latestTaskRunRef: Option<string>)

  datatype BuildRun = BuildRun(meta: ObjectMeta, spec: BuildRunSpec, status: BuildRunStatus)

  /** A Tekton TaskRun; `podName` is its Status.PodName. */
  datatype TaskRun = TaskRun(meta: ObjectMeta, podName: string)

  /** Result of fetching a BuildRun by name: any failure of the call, not-found included, is `NotFound`. */
  datatype GetResult = NotFound(cause: Cause) | Found(run: BuildRun)

  /** Result of a watch helper: the call failed, or it returned a possibly nil object. */
  datatype Watched<T> = WatchFailed(cause: Cause) | Returned(obj: Option<T>)

  /** One operation of a JSON Patch document (RFC 6902, section 4). */
  datatype PatchOp = PatchOp(op: string, path: string, value: string)

  /** The patch content types the commands use: `application/json-patch+json`. */
  datatype PatchType = JSONPatch

  /** The requested-state value that asks the controller to cancel a BuildRun
      (`buildv1alpha1.BuildRunStateCancel`, defined in the Shipwright API package). */
  const BuildRunStateCancel: string := "BuildRunCanceled"
}

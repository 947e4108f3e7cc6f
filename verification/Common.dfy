/** Values shared by the models. */
module Common {
  datatype Option<+T> = None | Some(value: T)

  datatype Result<+T> = Success(value: T) | Failure

  const U64_MAX: nat := 0xFFFF_FFFF_FFFF_FFFF

  type U64 = n: nat | n <= U64_MAX

  /** Addition that stops at the largest 64-bit value. */
  function SaturatingAdd(a: U64, b: U64): U64 {
    if a + b <= U64_MAX then a + b else U64_MAX
  }

  function SaturatingSub(a: nat, b: nat): nat {
    if b <= a then a - b else 0
  }

  ghost predicate Distinct<T>(s: seq<T>) {
    forall i, j :: 0 <= i < j < |s| ==> s[i] != s[j]
  }
}

/**
 Background work. A job is a handle to a worker; a worker is running until it finishes,
 with the value it sent or with none when it was aborted or panicked.
 */
module Jobs {
  import opened Common

  datatype Worker<+T, +R> = Running(task: T) | Finished(task: T, sent: Option<R>)

  datatype Progress<+R> = Waiting | Complete(result: R)

  type JobId = nat

  /** Polls the job of worker id; a worker that sent nothing reports a failure. */
  function PollJob<T, R>(workers: seq<Worker<T, Result<R>>>, id: JobId): Progress<Result<R>>
    requires id < |workers|
  {
    match workers[id]
    case Running(_) => Waiting
    case Finished(_, None) => Complete(Failure)
    case Finished(_, Some(result)) => Complete(result)
  }

  /** At most the worker behind the given handle is still running. */
  ghost predicate OnlyLive<T, R>(workers: seq<Worker<T, R>>, handle: Option<JobId>) {
    && (handle.Some? ==> handle.value < |workers|)
    && forall id :: 0 <= id < |workers| && workers[id].Running? ==> handle == Some(id)
  }
}

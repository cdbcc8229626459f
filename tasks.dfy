/**
 * Spawned tasks and their join results. Scheduling is not modelled: a task's join result is
 * its computed value, unless that task is named among the join failures (a panic or cancellation),
 * in which case it is the text of the `JoinError`.
 */
module Tasks {
  import opened Wrappers
  import opened Errors
  import opened Seqs

  /** Every task the program spawns. */
  datatype Task =
    | MxLookup | TxtLookup | AutodiscoverCheck | LyncdiscoverCheck | SipCheck
    | FederationTask | AadConfigTask | AadConnectTask
    | M365Task | SharePointCheck | BrandingCheck | EwsCheck | ActiveSyncCheck
    | AzureServiceTask | AppServiceCheck | StorageCheck | CdnCheck

  /** Spawned tasks whose join fails, with the text of each `JoinError`. */
  type JoinFailures = map<Task, string>

  /** Rust's `Result<T, JoinError>`. */
  datatype Join<T> = Joined(value: T) | JoinFailed(reason: string)

  /** The join result of task `t`, spawned to compute `v`. */
  function Await<T>(t: Task, failures: JoinFailures, v: T): Join<T> {
    if t in failures then JoinFailed(failures[t]) else Joined(v)
  }

  /** `handle.await.unwrap_or_else(|e| Err(ReconError::check_failed(check, e.to_string())))`. */
  function JoinOrFail<T>(j: Join<Result<T, ReconError>>, check: string): Result<T, ReconError> {
    match j
    case Joined(r) => r
    case JoinFailed(reason) => Err(CheckFailed(check, reason))
  }

  /**
   * Among tasks awaited in the order `order`, each with `?`, the position of the first whose join
   * fails: when those tasks themselves never fail, that one decides the error of the group.
   */
  function FirstFailed(order: seq<Task>, failures: JoinFailures): (r: Option<nat>)
    ensures r.None? <==> forall j :: 0 <= j < |order| ==> order[j] !in failures
    ensures r.Some? ==> r.value < |order| && order[r.value] in failures
    ensures r.Some? ==> forall j :: 0 <= j < r.value ==> order[j] !in failures
  {
    FirstIndex(order, t => t in failures)
  }

  /** Two failure maps agree on every task of `ts`: the same ones fail, with the same reasons. */
  predicate AgreeOn(f1: JoinFailures, f2: JoinFailures, ts: seq<Task>) {
    forall j :: 0 <= j < |ts| ==> (ts[j] in f1 <==> ts[j] in f2) && (ts[j] in f1 ==> f1[ts[j]] == f2[ts[j]])
  }

  /** Joining a task depends only on whether that task fails, and why. */
  lemma AwaitAgree<T>(t: Task, f1: JoinFailures, f2: JoinFailures, v: T)
    requires t in f1 <==> t in f2
    requires t in f1 ==> f1[t] == f2[t]
    ensures Await(t, f1, v) == Await(t, f2, v)
  {
  }

  /** The first failing task depends only on the failures of those tasks in the order. */
  lemma FirstFailedAgree(order: seq<Task>, f1: JoinFailures, f2: JoinFailures)
    requires AgreeOn(f1, f2, order)
    ensures FirstFailed(order, f1) == FirstFailed(order, f2)
  {
    var a, b := FirstFailed(order, f1), FirstFailed(order, f2);
    if a.Some? && b.Some? {
      assert !(a.value < b.value);
      assert !(b.value < a.value);
    }
  }

  /** Failing one more task outside `ts` leaves the failures on `ts` as they were. */
  lemma AgreeWithoutTask(f: JoinFailures, t: Task, reason: string, ts: seq<Task>)
    requires forall j :: 0 <= j < |ts| ==> ts[j] != t
    ensures AgreeOn(f, f[t := reason], ts)
  {
  }
}

/** State of the durable-intent session protocol of one case: database rows, the processes that
    are running, and the remote. One event is one committed transaction or one remote call, so a
    crash may fall between any two of them. */
module SessionModel {
  import opened Wrappers
  import opened Tags
  import L = Lifecycle
  import S = Status

  datatype AttemptStatus =
    Running | Succeeded | Failed | Blocked | Cancelled | Reconciling | TerminationPending | TimedOut

  datatype CreateState = Pending | NotSent | Created | Uncertain | Reconciled | ApiError | Unresolved

  /** What the code reads back out of the text column `reconciliation_reason`. */
  datatype Reason =
    | NoReason
    | CancelRequested
    | WorkerError
    | Acknowledged
    | NoOutput(gone: bool)
    | OtherReason

  datatype Attempt = Attempt(
    kind: Kind,
    ordinal: nat,
    key: string,
    createState: CreateState,
    status: AttemptStatus,
    sent: bool,
    session: Option<nat>,
    finished: bool,
    output: bool,
    reason: Reason)

  predicate Active(a: Attempt) { a.status == Running || a.status == Reconciling || a.status == TerminationPending }

  /** The attempt owns, or may own, a remote session that nobody has closed out. */
  predicate Owning(a: Attempt) { Active(a) || a.status == Blocked }

  /** A remote session only ever moves forward: working, stopped, gone. */
  datatype Phase = Working | Stopped | Gone

  datatype Session = Session(tag: string, phase: Phase)

  /** One POST: which attempt, under which key, by which run. */
  datatype Post = Post(attempt: nat, key: string, run: nat)

  datatype Config = Config(caseId: string, maxAttempts: nat, triageAcu: nat, remediationAcu: nat)

  /** Where a process is, between two events. */
  datatype Pc =
    | Dispatching
    | Evaluated
    | Entered(kind: Kind)
    | Settling(kind: Kind, ordinal: nat, todo: seq<nat>, closed: set<nat>)
    | SettleDelete(kind: Kind, ordinal: nat, todo: seq<nat>, closed: set<nat>)
    | Inserting(kind: Kind, ordinal: nat)
    | Building(attempt: nat)
    | Posting(attempt: nat)
    | Attaching(attempt: nat, sid: nat, createState: CreateState)
    | Orphaned(sid: nat)
    | Refused(attempt: nat)
    | OutcomeUnknown(attempt: nat)
    | BeginReconcile(attempt: nat)
    | Searching(attempt: nat)
    | Unmatched(attempt: nat)
    | Polling(attempt: nat)
    | PollGet(attempt: nat)
    | SessionLost(attempt: nat)
    | Settled(attempt: nat, disposition: S.Disposition, output: bool)
    | Finishing(attempt: nat)
    | Handling(attempt: nat)
    | Deleting(attempt: nat)
    | DeleteFailed(attempt: nat)
    | Sweeping(attempt: nat)
    | Closing(attempt: nat)
    | Terminating(todo: seq<nat>, closed: set<nat>, parked: set<nat>)
    | Rereading(candidates: seq<nat>, todo: seq<nat>, found: seq<(nat, bool)>)
    | Abandoning

  /** A running process: `mem` is the case state it holds in memory, `fence` the claim its
      transitions are fenced with (none for the operator's reconcile request). */
  datatype Process = Process(pc: Pc, mem: L.CaseState, run: nat, fence: Option<nat>)

  datatype World = World(
    config: Config,
    state: L.CaseState,
    claimedBy: Option<nat>,
    attempts: seq<Attempt>,
    inserters: seq<nat>,
    runs: nat,
    processes: map<nat, Process>,
    sessions: map<nat, Session>,
    posts: seq<Post>)

  function Initial(config: Config): World {
    World(config, L.Received, None, [], [], 0, map[], map[], [])
  }

  function PhaseOf(kind: Kind): L.PhaseStates {
    if kind == Triage then L.TRIAGE_PHASE else L.REMEDIATION_PHASE
  }

  function AcuOf(config: Config, kind: Kind): nat {
    if kind == Triage then config.triageAcu else config.remediationAcu
  }

  // ------------------------------------------------------------------ remote answers

  datatype GetAnswer =
    | GetError
    | GetNotFound
    | Snapshot(disposition: S.Disposition, remoteTerminal: bool, output: bool, valid: bool)

  datatype DeleteAnswer = Deleted | DeleteNotFound | DeleteError

  /** `create_session`: a definite refusal creates nothing; a lost answer leaves both open. */
  datatype PostAnswer = PostAccepted | PostRefused | PostLost(created: bool)

  /** Look up by tag, then delete every match: all of them, or an error after some. */
  datatype SweepAnswer = Swept(matches: set<nat>) | SweepError(deleted: set<nat>)

  datatype SearchAnswer = OneMatch(sid: nat) | NoSingleMatch

  datatype Event =
    // the scheduler and the environment
    | ClaimCase(w: nat)
    | OperatorReconcile(w: nat)
    | Crash(w: nat)
    | RemoteStops(sid: nat)
    | RemoteVanishes(sid: nat)
    // operator requests and the approval flow
    | OperatorCancel
    | OperatorRetry(confirmNoSession: bool)
    | ApprovalMove(to: L.CaseState)
    // process_case
    | Evaluate(w: nat)
    | Admit(w: nat, eligible: bool)
    | Dispatch(w: nat, pick: nat)
    | PipelineMove(w: nat, to: L.CaseState, flagged: bool)
    | PipelineFail(w: nat)
    // DevinRunner.run and _create
    | Enter(w: nat, granted: bool)
    | SettleStep(w: nat, got: GetAnswer)
    | SettleDeleted(w: nat, answer: DeleteAnswer)
    | SettleCommit(w: nat)
    | Insert(w: nat, resultHash: string, baseSha: string)
    | Build(w: nat, ok: bool)
    | SendPost(w: nat, posted: PostAnswer, sid: nat)
    | Attach(w: nat)
    | DeleteOrphan(w: nat, answer: DeleteAnswer)
    | RecordRefusal(w: nat)
    | RecordUnknown(w: nat)
    | StartReconcile(w: nat)
    | Search(w: nat, found: SearchAnswer)
    | BlockUnmatched(w: nat)
    // _poll, _settle and _finish_triage
    | PollCheck(w: nat, expired: bool)
    | PollAnswer(w: nat, got: GetAnswer)
    | RecordLost(w: nat)
    | SettleOutcome(w: nat)
    | Finish(w: nat, valid: bool)
    // _handle_timeout, _terminate_by_tag and _mark_terminated
    | TimeoutGet(w: nat, got: GetAnswer)
    | TimeoutDelete(w: nat, answer: DeleteAnswer)
    | Park(w: nat)
    | SweepTag(w: nat, sweep: SweepAnswer)
    | CloseOut(w: nat, expired: bool)
    // terminate_running_attempts and _terminate_case
    | TerminateOne(w: nat, answer: DeleteAnswer, sweep: SweepAnswer)
    | TerminateCommit(w: nat)
    // reconcile_blocked
    | Reread(w: nat, got: GetAnswer)
    | Ingest(w: nat)
    // _cancel_unsent_attempts
    | Abandon(w: nat)

  // ------------------------------------------------------------------ queries

  predicate ActiveOf(a: Attempt, kind: Kind) { a.kind == kind && Active(a) }

  /** The newest active attempt of `kind` among the first `n`; rows are in `started_at` order. */
  function NewestActive(attempts: seq<Attempt>, kind: Kind, n: nat): (r: Option<nat>)
    requires n <= |attempts|
    ensures r.None? <==> forall i | 0 <= i < n :: !ActiveOf(attempts[i], kind)
    ensures r.Some? ==> r.value < n && ActiveOf(attempts[r.value], kind) &&
                        forall i | r.value < i < n :: !ActiveOf(attempts[i], kind)
  {
    if n == 0 then None
    else if ActiveOf(attempts[n - 1], kind) then Some(n - 1)
    else NewestActive(attempts, kind, n - 1)
  }

  /** Indices, newest first, of the attempts that satisfy `p`. */
  function Select(attempts: seq<Attempt>, p: Attempt -> bool, n: nat): (r: seq<nat>)
    requires n <= |attempts|
    ensures forall i :: i in r <==> 0 <= i < n && p(attempts[i])
    ensures forall j, k | 0 <= j < k < |r| :: r[k] < r[j]
  {
    if n == 0 then []
    else
      var rest := Select(attempts, p, n - 1);
      assert forall j | 0 <= j < |rest| :: rest[j] in rest;
      if p(attempts[n - 1]) then [n - 1] + rest else rest
  }

  function HighestOrdinal(attempts: seq<Attempt>, kind: Kind): (r: nat)
    ensures forall a <- attempts :: a.kind == kind ==> a.ordinal <= r
  {
    if attempts == [] then 0
    else
      var front, last := attempts[..|attempts| - 1], attempts[|attempts| - 1];
      var rest := HighestOrdinal(front, kind);
      assert attempts == front + [last];
      if last.kind == kind && last.ordinal > rest then last.ordinal else rest
  }

  function CountOf(attempts: seq<Attempt>, kind: Kind): nat {
    if attempts == [] then 0
    else CountOf(attempts[..|attempts| - 1], kind) + (if attempts[|attempts| - 1].kind == kind then 1 else 0)
  }

  /** `allocate_attempt_ordinal`: one more than the highest ordinal and than the row count. */
  function NextOrdinal(attempts: seq<Attempt>, kind: Kind): (r: nat)
    ensures 1 <= r && forall a <- attempts :: a.kind == kind ==> a.ordinal < r
  {
    var h, c := HighestOrdinal(attempts, kind), CountOf(attempts, kind);
    (if h > c then h else c) + 1
  }

  /** Rows `i` in `which` rewritten by `f`, the others untouched. */
  function Rewrite(attempts: seq<Attempt>, which: set<nat>, f: Attempt -> Attempt): (r: seq<Attempt>)
    ensures |r| == |attempts|
    ensures forall i | 0 <= i < |r| :: r[i] == if i in which then f(attempts[i]) else attempts[i]
  {
    seq(|attempts|, i requires 0 <= i < |attempts| => if i in which then f(attempts[i]) else attempts[i])
  }

  function Closed(a: Attempt, status: AttemptStatus): Attempt {
    a.(status := status, finished := true)
  }

  /** What the DELETE of `sids` leaves of the remote. */
  function Delete(sessions: map<nat, Session>, sids: set<nat>): (r: map<nat, Session>)
    ensures r.Keys == sessions.Keys
  {
    map sid <- sessions :: if sid in sids then sessions[sid].(phase := Gone) else sessions[sid]
  }
}

/** The case lifecycle: the 34 states, the transition table with the edges its loop adds,
    the phase vocabulary, and what every path through the graph obeys. */
module Lifecycle {

  datatype CaseState =
    | Received
    | EligibilityEvaluated
    | TriageCreateIntent
    | Triaging
    | Triaged
    | AwaitingRemediationApproval
    | ApprovalDeliveryFailed
    | RemediationApproved
    | RemediationRejected
    | RemediationCreateIntent
    | RemediationReconcilingCreate
    | Remediating
    | RemediationHumanBlocked
    | OutputValidating
    | PrDiscovered
    | PrValidating
    | ProbeValidatingBase
    | ProbeInfrastructureBlocked
    | ProbeValidatingHead
    | PrValidated
    | CiPending
    | CiPassed
    | CiFailed
    | RemediationFailed
    | RemediationTerminationPending
    | RemediationTimedOut
    | RemediationCancelled
    | HumanBlocked
    | ReconcilingCreate
    | TerminationPending
    | TimedOut
    | PolicyRejected
    | Failed
    | Cancelled

  predicate Terminal(s: CaseState) {
    match s
    case CiPassed | CiFailed | TimedOut | PolicyRejected | RemediationRejected | RemediationFailed
       | RemediationTimedOut | RemediationCancelled | Failed | Cancelled => true
    case _ => false
  }

  /** States owned by the remediation pipeline. */
  predicate InRemediation(s: CaseState) {
    match s
    case RemediationApproved | RemediationCreateIntent | RemediationReconcilingCreate | Remediating
       | RemediationHumanBlocked | OutputValidating | PrDiscovered | PrValidating | ProbeValidatingBase
       | ProbeInfrastructureBlocked | ProbeValidatingHead | PrValidated | CiPending | CiPassed | CiFailed
       | RemediationFailed | RemediationTerminationPending | RemediationTimedOut
       | RemediationCancelled => true
    case _ => false
  }

  /** Remediation states in which a session may exist for the current attempt. */
  const REMEDIATION_SESSION_STATES: set<CaseState> :=
    {RemediationCreateIntent, RemediationReconcilingCreate, Remediating, RemediationTerminationPending}

  /** Remediation states from which an operator may start a new attempt. */
  const REMEDIATION_RETRYABLE_STATES: set<CaseState> :=
    {RemediationFailed, RemediationTimedOut, RemediationHumanBlocked}

  /** States the table-extending loop ranges over. */
  predicate Extended(s: CaseState) { !Terminal(s) && !InRemediation(s) }

  /** The table literal, before the loop extends it. */
  predicate Declared(a: CaseState, b: CaseState) {
    match a
    case Received => b.EligibilityEvaluated? || b.Failed? || b.Cancelled? || b.TerminationPending?
    case EligibilityEvaluated =>
      b.TriageCreateIntent? || b.PolicyRejected? || b.Failed? || b.Cancelled? || b.TerminationPending?
    case TriageCreateIntent =>
      b.ReconcilingCreate? || b.Triaging? || b.Failed? || b.Cancelled? || b.TerminationPending?
    case Triaging =>
      b.Triaged? || b.HumanBlocked? || b.TimedOut? || b.Failed? || b.Cancelled? || b.TerminationPending?
    case Triaged =>
      b.AwaitingRemediationApproval? || b.PolicyRejected? || b.Failed? || b.Cancelled? ||
      b.TerminationPending?
    case AwaitingRemediationApproval =>
      b.RemediationApproved? || b.RemediationRejected? || b.ApprovalDeliveryFailed? || b.Failed? ||
      b.Cancelled? || b.TerminationPending?
    case ApprovalDeliveryFailed => b.RemediationApproved? || b.Failed? || b.Cancelled? || b.TerminationPending?
    case RemediationRejected => false
    case RemediationApproved =>
      b.ProbeValidatingBase? || b.RemediationHumanBlocked? || b.RemediationFailed? ||
      b.RemediationCancelled?
    case ProbeValidatingBase =>
      b.RemediationCreateIntent? || b.ProbeInfrastructureBlocked? || b.RemediationHumanBlocked? ||
      b.RemediationFailed? || b.RemediationCancelled?
    case ProbeInfrastructureBlocked => b.ProbeValidatingBase? || b.RemediationCancelled?
    case RemediationCreateIntent =>
      b.RemediationReconcilingCreate? || b.Remediating? || b.RemediationTerminationPending? ||
      b.RemediationFailed? || b.RemediationCancelled?
    case RemediationReconcilingCreate =>
      b.Remediating? || b.RemediationHumanBlocked? || b.RemediationTerminationPending? ||
      b.RemediationFailed? || b.RemediationCancelled?
    case Remediating =>
      b.OutputValidating? || b.RemediationHumanBlocked? || b.RemediationTimedOut? ||
      b.RemediationTerminationPending? || b.RemediationFailed? || b.RemediationCancelled?
    case OutputValidating =>
      b.PrDiscovered? || b.RemediationHumanBlocked? || b.RemediationFailed? || b.RemediationCancelled?
    case PrDiscovered =>
      b.PrValidating? || b.RemediationHumanBlocked? || b.RemediationFailed? || b.RemediationCancelled?
    case PrValidating =>
      b.ProbeValidatingHead? || b.RemediationHumanBlocked? || b.RemediationFailed? ||
      b.RemediationCancelled?
    case ProbeValidatingHead =>
      b.PrValidated? || b.RemediationHumanBlocked? || b.RemediationFailed? || b.RemediationCancelled?
    case PrValidated => b.CiPending? || b.RemediationFailed? || b.RemediationCancelled?
    case CiPending =>
      b.CiPassed? || b.CiFailed? || b.RemediationHumanBlocked? || b.RemediationFailed? ||
      b.RemediationCancelled?
    case CiPassed => false
    case CiFailed => b.CiPending? || b.RemediationCancelled?
    case RemediationHumanBlocked =>
      b.RemediationApproved? || b.RemediationTerminationPending? || b.RemediationFailed? ||
      b.RemediationCancelled?
    case RemediationTerminationPending =>
      b.OutputValidating? || b.RemediationHumanBlocked? || b.RemediationTimedOut? ||
      b.RemediationFailed? || b.RemediationCancelled?
    case RemediationFailed =>
      b.RemediationApproved? || b.ProbeValidatingHead? || b.CiPending? || b.RemediationCancelled?
    case RemediationTimedOut => b.RemediationApproved? || b.RemediationCancelled?
    case RemediationCancelled => false
    case HumanBlocked => b.Cancelled? || b.Failed? || b.Received? || b.TerminationPending? || b.Triaging?
    case ReconcilingCreate =>
      b.Triaging? || b.HumanBlocked? || b.Failed? || b.Cancelled? || b.TerminationPending?
    case TerminationPending => b.TimedOut? || b.Triaged? || b.HumanBlocked? || b.Cancelled? || b.Failed?
    case TimedOut => b.Received?
    case PolicyRejected => false
    case Failed => b.Received?
    case Cancelled => false
  }

  /** Edges that exist only when no acceptance probe is configured. */
  predicate ProbeNotConfigured(a: CaseState, b: CaseState) {
    (a == RemediationApproved && b == RemediationCreateIntent) || (a == PrValidating && b == PrValidated)
  }

  predicate GenericExit(b: CaseState) {
    b == Failed || b == Cancelled || b == TerminationPending
  }

  /** The final table: what the loop leaves. */
  predicate Edge(a: CaseState, b: CaseState) {
    Declared(a, b) || (Extended(a) && GenericExit(b))
  }

  /** What `transition` accepts for a caller that passes `flagged` as `probe_not_configured`. */
  predicate Allowed(a: CaseState, b: CaseState, flagged: bool) {
    Edge(a, b) || (flagged && ProbeNotConfigured(a, b))
  }

  /** The table as the source stores it: a set of successors for every state. */
  ghost predicate Tabulates(table: map<CaseState, set<CaseState>>, edge: (CaseState, CaseState) -> bool) {
    && (forall a: CaseState :: a in table)
    && (forall a: CaseState, b: CaseState :: b in table[a] <==> edge(a, b))
  }

  /** The loop that adds the generic exits to every live state outside the remediation phase. */
  method ExtendTable(declared: map<CaseState, set<CaseState>>) returns (table: map<CaseState, set<CaseState>>)
    requires Tabulates(declared, Declared)
    ensures Tabulates(table, Edge)
  {
    table := declared;
    var extended := set a: CaseState | Extended(a);
    var todo := extended;
    var exits := {Failed, Cancelled, TerminationPending};
    while todo != {}
      invariant todo <= extended
      invariant forall a: CaseState :: a in table
      invariant forall a <- extended - todo :: table[a] == declared[a] + exits
      invariant forall a: CaseState | a !in extended - todo :: table[a] == declared[a]
    {
      var a :| a in todo;
      table := table[a := table[a] + exits];
      todo := todo - {a};
    }
    forall a: CaseState, b: CaseState
      ensures b in table[a] <==> Edge(a, b)
    {
      assert b in declared[a] <==> Declared(a, b);
      assert a in extended <==> Extended(a);
    }
  }

  // ------------------------------------------------------------------ phase vocabulary

  datatype PhaseStates = PhaseStates(
    intent: CaseState,
    running: CaseState,
    reconciling: CaseState,
    humanBlocked: CaseState,
    terminationPending: CaseState,
    timedOut: CaseState,
    failed: CaseState,
    cancelled: CaseState)

  const TRIAGE_PHASE := PhaseStates(
    TriageCreateIntent, Triaging, ReconcilingCreate, HumanBlocked, TerminationPending, TimedOut,
    Failed, Cancelled)

  const REMEDIATION_PHASE := PhaseStates(
    RemediationCreateIntent, Remediating, RemediationReconcilingCreate, RemediationHumanBlocked,
    RemediationTerminationPending, RemediationTimedOut, RemediationFailed, RemediationCancelled)

  function PhaseForState(s: CaseState): PhaseStates {
    if InRemediation(s) then REMEDIATION_PHASE else TRIAGE_PHASE
  }

  predicate IsTerminationPending(s: CaseState) {
    s == TerminationPending || s == RemediationTerminationPending
  }

  lemma RemediationCanFail(s: CaseState)
    requires InRemediation(s) && !Terminal(s)
    ensures Declared(s, RemediationFailed) <==> s != ProbeInfrastructureBlocked
  {
    match s
    case RemediationApproved => case RemediationCreateIntent => case RemediationReconcilingCreate =>
    case Remediating => case RemediationHumanBlocked => case OutputValidating => case PrDiscovered =>
    case PrValidating => case ProbeValidatingBase => case ProbeInfrastructureBlocked =>
    case ProbeValidatingHead => case PrValidated => case CiPending => case RemediationTerminationPending =>
  }

  /** A live case can always be failed in its own phase, with one exception:
      PROBE_INFRASTRUCTURE_BLOCKED. Neither the move nor the parking leaves the phase. */
  lemma FailCaseMoves(s: CaseState)
    requires !Terminal(s)
    ensures Edge(s, PhaseForState(s).failed) <==> s != ProbeInfrastructureBlocked
    ensures InRemediation(PhaseForState(s).failed) <==> InRemediation(s)
    ensures InRemediation(PhaseForState(s).terminationPending) <==> InRemediation(s)
    ensures InRemediation(PhaseForState(s).cancelled) <==> InRemediation(s)
  {
    if InRemediation(s) { RemediationCanFail(s); }
    hide Declared;
  }

  /** Parking a live case in its phase's termination state is accepted from everywhere in triage,
      but in the remediation phase only where a session may exist or a human was asked. */
  lemma ParkingMoves(s: CaseState)
    requires !Terminal(s)
    ensures Edge(s, PhaseForState(s).terminationPending) <==>
            !InRemediation(s) || s.RemediationCreateIntent? || s.RemediationReconcilingCreate? || s.Remediating? ||
            s.RemediationHumanBlocked?
  {
    match s
    case Received => case EligibilityEvaluated => case TriageCreateIntent => case Triaging =>
    case Triaged => case AwaitingRemediationApproval => case ApprovalDeliveryFailed =>
    case RemediationApproved => case RemediationRejected => case RemediationCreateIntent =>
    case RemediationReconcilingCreate => case Remediating => case RemediationHumanBlocked =>
    case OutputValidating => case PrDiscovered => case PrValidating => case ProbeValidatingBase =>
    case ProbeInfrastructureBlocked => case ProbeValidatingHead => case PrValidated =>
    case CiPending => case CiPassed => case CiFailed => case RemediationFailed =>
    case RemediationTerminationPending => case RemediationTimedOut => case RemediationCancelled =>
    case HumanBlocked => case ReconcilingCreate => case TerminationPending => case TimedOut =>
    case PolicyRejected => case Failed => case Cancelled =>
  }

  // ------------------------------------------------------------------ paths through the graph

  /** One row of the transition log. */
  datatype Move = Move(from: CaseState, to: CaseState, flagged: bool)

  /** The state a log ends in, for a case that starts in RECEIVED. */
  function Last(log: seq<Move>): CaseState {
    if log == [] then Received else log[|log| - 1].to
  }

  /** Every row leaves the state the previous row entered, along an edge of the table. */
  ghost predicate IsPath(log: seq<Move>) {
    forall i | 0 <= i < |log| ::
      log[i].from == Last(log[..i]) && Allowed(log[i].from, log[i].to, log[i].flagged)
  }

  /** How often a run visited `s`, the start in RECEIVED included. */
  function Visits(log: seq<Move>, s: CaseState): nat {
    if log == [] then (if s == Received then 1 else 0)
    else Visits(log[..|log| - 1], s) + (if log[|log| - 1].to == s then 1 else 0)
  }

  lemma PathPrefix(log: seq<Move>)
    requires log != [] && IsPath(log)
    ensures IsPath(log[..|log| - 1])
    ensures Last(log[..|log| - 1]) == log[|log| - 1].from
    ensures Allowed(log[|log| - 1].from, log[|log| - 1].to, log[|log| - 1].flagged)
  {
    var front := log[..|log| - 1];
    forall i | 0 <= i < |front|
      ensures front[i].from == Last(front[..i]) && Allowed(front[i].from, front[i].to, front[i].flagged)
    {
      assert front[..i] == log[..i];
      assert log[i].from == Last(log[..i]);
    }
    assert log[|log| - 1].from == Last(log[..|log| - 1]);
  }

  /** A region that is entered only through `gate` and that is the only way to `exit`:
      the exits never outnumber the entries of the gate. */
  ghost predicate Gated(region: set<CaseState>, gate: CaseState, exit: CaseState) {
    && gate in region
    && exit !in region
    && (forall a, b, f | Allowed(a, b, f) ::
          (b == exit ==> a in region) && (b in region && b != gate ==> a in region))
  }

  lemma {:induction false} GateCounts(log: seq<Move>, region: set<CaseState>, gate: CaseState, exit: CaseState)
    requires IsPath(log) && Gated(region, gate, exit)
    requires Received in region ==> gate == Received
    requires exit != Received
    ensures Visits(log, exit) + (if Last(log) in region then 1 else 0) <= Visits(log, gate)
  {
    if log != [] {
      PathPrefix(log);
      GateCounts(log[..|log| - 1], region, gate, exit);
      var m := log[|log| - 1];
      assert Allowed(m.from, m.to, m.flagged);
    }
  }

  /** The predecessors, under either flag, of the states the counting arguments turn on. */
  lemma Predecessors(a: CaseState, b: CaseState, f: bool)
    requires Allowed(a, b, f)
    ensures b == RemediationCreateIntent ==> a == RemediationApproved || a == ProbeValidatingBase
    ensures b == ProbeValidatingBase ==> a == RemediationApproved || a == ProbeInfrastructureBlocked
    ensures b == ProbeInfrastructureBlocked ==> a == ProbeValidatingBase
    ensures b == PrValidated ==> a == ProbeValidatingHead || (f && a == PrValidating)
  {
    match a
    case Received => case EligibilityEvaluated => case TriageCreateIntent => case Triaging =>
    case Triaged => case AwaitingRemediationApproval => case ApprovalDeliveryFailed =>
    case RemediationApproved => case RemediationRejected => case RemediationCreateIntent =>
    case RemediationReconcilingCreate => case Remediating => case RemediationHumanBlocked =>
    case OutputValidating => case PrDiscovered => case PrValidating => case ProbeValidatingBase =>
    case ProbeInfrastructureBlocked => case ProbeValidatingHead => case PrValidated =>
    case CiPending => case CiPassed => case CiFailed => case RemediationFailed =>
    case RemediationTerminationPending => case RemediationTimedOut => case RemediationCancelled =>
    case HumanBlocked => case ReconcilingCreate => case TerminationPending => case TimedOut =>
    case PolicyRejected => case Failed => case Cancelled =>
  }

  lemma TriagePredecessors(a: CaseState, b: CaseState, f: bool)
    requires Allowed(a, b, f)
    ensures b == TriageCreateIntent ==> a == EligibilityEvaluated
    ensures b == EligibilityEvaluated ==> a == Received
    ensures b == ApprovalDeliveryFailed ==> a == AwaitingRemediationApproval
  {
    match a
    case Received => case EligibilityEvaluated => case TriageCreateIntent => case Triaging =>
    case Triaged => case AwaitingRemediationApproval => case ApprovalDeliveryFailed =>
    case RemediationApproved => case RemediationRejected => case RemediationCreateIntent =>
    case RemediationReconcilingCreate => case Remediating => case RemediationHumanBlocked =>
    case OutputValidating => case PrDiscovered => case PrValidating => case ProbeValidatingBase =>
    case ProbeInfrastructureBlocked => case ProbeValidatingHead => case PrValidated =>
    case CiPending => case CiPassed => case CiFailed => case RemediationFailed =>
    case RemediationTerminationPending => case RemediationTimedOut => case RemediationCancelled =>
    case HumanBlocked => case ReconcilingCreate => case TerminationPending => case TimedOut =>
    case PolicyRejected => case Failed => case Cancelled =>
  }

  lemma RemediationIntentIsGated()
    ensures Gated({RemediationApproved, ProbeValidatingBase, ProbeInfrastructureBlocked},
                  RemediationApproved, RemediationCreateIntent)
  {
    forall a, b, f | Allowed(a, b, f)
      ensures b == RemediationCreateIntent || b == ProbeValidatingBase || b == ProbeInfrastructureBlocked ==>
              a == RemediationApproved || a == ProbeValidatingBase || a == ProbeInfrastructureBlocked
    {
      Predecessors(a, b, f);
    }
  }

  lemma TriageIntentIsGated()
    ensures Gated({Received, EligibilityEvaluated}, Received, TriageCreateIntent)
  {
    forall a, b, f | Allowed(a, b, f)
      ensures b == TriageCreateIntent || b == EligibilityEvaluated ==> a == Received || a == EligibilityEvaluated
    {
      TriagePredecessors(a, b, f);
    }
  }

  /** Spend discipline of the graph: a paid remediation needs its own approval or retry, and a
      paid triage its own visit to RECEIVED, in every run. */
  lemma IntentsNeverOutnumberAdmissions(log: seq<Move>)
    requires IsPath(log)
    ensures Visits(log, RemediationCreateIntent) <= Visits(log, RemediationApproved)
    ensures Visits(log, TriageCreateIntent) <= Visits(log, Received)
  {
    RemediationIntentIsGated();
    GateCounts(log, {RemediationApproved, ProbeValidatingBase, ProbeInfrastructureBlocked},
               RemediationApproved, RemediationCreateIntent);
    TriageIntentIsGated();
    GateCounts(log, {Received, EligibilityEvaluated}, Received, TriageCreateIntent);
  }

  lemma RemediationIsClosed(a: CaseState, b: CaseState, f: bool)
    requires Allowed(a, b, f) && InRemediation(a)
    ensures InRemediation(b)
  {}

  lemma RemediationDoor(a: CaseState, b: CaseState, f: bool)
    requires Allowed(a, b, f) && !InRemediation(a) && InRemediation(b)
    ensures b == RemediationApproved
    ensures a == AwaitingRemediationApproval || a == ApprovalDeliveryFailed
  {}

  /** The remediation phase is never left, and only a case that awaited approval enters it. */
  lemma {:induction false} RemediationIsAOneWayDoor(log: seq<Move>, i: nat)
    requires IsPath(log) && i <= |log|
    ensures InRemediation(Last(log[..i])) ==> InRemediation(Last(log))
    ensures InRemediation(Last(log)) ==> Visits(log, AwaitingRemediationApproval) > 0
    ensures Last(log) == ApprovalDeliveryFailed ==> Visits(log, AwaitingRemediationApproval) > 0
    decreases |log|
  {
    if log != [] {
      PathPrefix(log);
      var front, m := log[..|log| - 1], log[|log| - 1];
      if InRemediation(m.from) {
        RemediationIsClosed(m.from, m.to, m.flagged);
      } else if InRemediation(m.to) {
        RemediationDoor(m.from, m.to, m.flagged);
      }
      TriagePredecessors(m.from, m.to, m.flagged);
      if i == |log| {
        assert log[..i] == log;
        RemediationIsAOneWayDoor(front, |front|);
      } else {
        assert log[..i] == front[..i];
        RemediationIsAOneWayDoor(front, i);
      }
      LastIsVisited(front);
    }
  }

  lemma {:induction false} LastIsVisited(log: seq<Move>)
    ensures Visits(log, Last(log)) > 0
  {}

  /** PR_VALIDATED follows the HEAD probe, except along the flagged edge, and then exactly so. */
  lemma PrValidatedFollowsHeadProbe(log: seq<Move>, i: nat)
    requires IsPath(log) && i < |log| && log[i].to == PrValidated
    ensures log[i].from == ProbeValidatingHead <==> !(log[i].flagged && log[i].from == PrValidating)
    ensures !log[i].flagged ==> log[i].from == ProbeValidatingHead
  {
    Predecessors(log[i].from, log[i].to, log[i].flagged);
  }
}

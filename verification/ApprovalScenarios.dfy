/** Two concrete runs that mark the limits of the theorems on labels: a crash before the replay
    wedges the case, and a lease that lapses under a slow write un-confirms a delivery. */
module ApprovalScenarios {
  import opened Wrappers
  import opened Approvals
  import opened ApprovalSafety
  import opened ApprovalDelivery
  import opened LabelRace
  import L = Lifecycle

  const CLICK := Click(9, Approve, 0, 0)

  /** Triage, one Slack message, one click on approve. */
  const APPROVAL: seq<Event> := [
    CaseMoves(L.EligibilityEvaluated, false), CaseMoves(L.TriageCreateIntent, false), CaseMoves(L.Triaging, false),
    NewAttempt(7), NewRound(7),
    Claim(1, 0), Begin(1, true, IssueOpen, NothingFound, 9), PostSlack(1, Posted), FinishSlack(1),
    SlackClick(CLICK, true, false)]

  const ROUND := FreshRequest(7)

  /** The request as the click leaves it. */
  const DECIDED := ROUND.(decision := Approved, delivery := Queued, notification := Notified, token := Retired(9),
                          message := Some(0))

  const SLACK_ROW := Row(0, SlackRequest, Sent, 1, None)

  /** The world after the approval. */
  function AfterApproval(maxAttempts: nat): World {
    World(maxAttempts, L.AwaitingRemediationApproval, 7, [DECIDED], [SLACK_ROW, Row(0, ApplyLabel, Pending, 0, None)],
          map[], [], {CLICK}, {9}, 0, false, {}, [], [Message(0, 9)])
  }

  /** One more event of a run whose world is known. */
  lemma Follow(s: World, es: seq<Event>, k: nat, before: World, after: World)
    requires k < |es| && Run(s, es[..k]) == before && Next(before, es[k]) == after
    ensures Run(s, es[..k + 1]) == after
  {
    hide Next;
    assert es[..k + 1][..k] == es[..k];
  }

  const WAITING := Row(0, SlackRequest, Pending, 0, None)

  /** The case with an armed request: the token is committed, the message not yet posted. */
  function Armed(maxAttempts: nat): World {
    Initial(maxAttempts).(state := L.AwaitingRemediationApproval, currentAttempt := 7,
                          requests := [ROUND.(notification := Sending, token := Live(9))],
                          rows := [Row(0, SlackRequest, Pending, 1, Some(1))], tokens := {9},
                          dispatchers := map[1 := Dispatcher(0, SlackPosting(9))])
  }

  lemma TriageRuns(maxAttempts: nat)
    ensures Run(Initial(maxAttempts), APPROVAL[..3]) == Initial(maxAttempts).(state := L.Triaging)
  {
    var s, es := Initial(maxAttempts), APPROVAL;
    Follow(s, es, 0, s, s.(state := L.EligibilityEvaluated));
    Follow(s, es, 1, s.(state := L.EligibilityEvaluated), s.(state := L.TriageCreateIntent));
    Follow(s, es, 2, s.(state := L.TriageCreateIntent), s.(state := L.Triaging));
  }

  lemma TriageLeads(maxAttempts: nat)
    ensures
      Run(Initial(maxAttempts), APPROVAL[..5]) ==
      Initial(maxAttempts).(state := L.AwaitingRemediationApproval, currentAttempt := 7, requests := [ROUND],
                            rows := [WAITING])
  {
    var s, es := Initial(maxAttempts), APPROVAL;
    TriageRuns(maxAttempts);
    var t := s.(state := L.Triaging, currentAttempt := 7);
    Follow(s, es, 3, s.(state := L.Triaging), t);
    RoundLeads(t);
    Follow(s, es, 4, t, t.(state := L.AwaitingRemediationApproval, requests := [ROUND], rows := [WAITING]));
  }

  lemma RoundLeads(t: World)
    requires t.requests == [] && t.rows == [] && t.state == L.Triaging
    ensures OnNewRound(t, 7) == t.(state := L.AwaitingRemediationApproval, requests := [ROUND], rows := [WAITING])
  {
    assert OnNewRound(t, 7).requests == [ROUND];
  }

  lemma TokenArms(t: World, t1: World)
    requires t.rows == [WAITING] && t.requests == [ROUND] && t.dispatchers == map[] && t.tokens == {}
    requires t.currentAttempt == 7 && t.state == L.AwaitingRemediationApproval
    requires t1 == t.(rows := [Row(0, SlackRequest, Pending, 1, Some(1))], dispatchers := map[1 := Dispatcher(0, Claimed)])
    ensures OnClaim(t, 1, 0) == t1
    ensures OnBegin(t1, 1, true, IssueOpen, NothingFound, 9) ==
            t1.(requests := [ROUND.(notification := Sending, token := Live(9))], tokens := {9},
                dispatchers := map[1 := Dispatcher(0, SlackPosting(9))])
  {
    assert OnBegin(t1, 1, true, IssueOpen, NothingFound, 9).requests == [ROUND.(notification := Sending, token := Live(9))];
  }

  lemma ArmedLeads(maxAttempts: nat)
    ensures Run(Initial(maxAttempts), APPROVAL[..7]) == Armed(maxAttempts)
  {
    var s, es := Initial(maxAttempts), APPROVAL;
    TriageLeads(maxAttempts);
    var t := s.(state := L.AwaitingRemediationApproval, currentAttempt := 7, requests := [ROUND], rows := [WAITING]);
    var held := [Row(0, SlackRequest, Pending, 1, Some(1))];
    var t1 := t.(rows := held, dispatchers := map[1 := Dispatcher(0, Claimed)]);
    TokenArms(t, t1);
    hide OnClaim, OnBegin;
    Follow(s, es, 5, t, t1);
    Follow(s, es, 6, t1, Armed(maxAttempts));
  }

  lemma MessagePosted(t: World, u: World)
    requires t.rows == [Row(0, SlackRequest, Pending, 1, Some(1))] && |t.requests| == 1 && t.messages == []
    requires t.dispatchers == map[1 := Dispatcher(0, SlackPosting(9))]
    requires u == t.(messages := [Message(0, 9)], dispatchers := map[1 := Dispatcher(0, SlackPosted(0))])
    ensures OnPostSlack(t, 1, Posted) == u
    ensures OnFinishSlack(u, 1) ==
            u.(requests := [t.requests[0].(notification := Notified, message := Some(0))], rows := [SLACK_ROW], dispatchers := map[])
  {
    assert OnFinishSlack(u, 1).requests == [t.requests[0].(notification := Notified, message := Some(0))];
  }

  lemma MessageLeads(maxAttempts: nat)
    ensures
      Run(Initial(maxAttempts), APPROVAL[..9]) ==
      Initial(maxAttempts).(state := L.AwaitingRemediationApproval, currentAttempt := 7,
                            requests := [ROUND.(notification := Notified, token := Live(9), message := Some(0))],
                            rows := [SLACK_ROW], tokens := {9}, messages := [Message(0, 9)])
  {
    hide OnPostSlack, OnFinishSlack;
    var s, es := Initial(maxAttempts), APPROVAL;
    ArmedLeads(maxAttempts);
    var t2 := Armed(maxAttempts);
    var t3 := t2.(messages := [Message(0, 9)], dispatchers := map[1 := Dispatcher(0, SlackPosted(0))]);
    MessagePosted(t2, t3);
    Follow(s, es, 7, t2, t3);
    Follow(s, es, 8, t3, t3.(requests := [t2.requests[0].(notification := Notified, message := Some(0))],
                             rows := [SLACK_ROW], dispatchers := map[]));
  }

  lemma ApprovalLeads(maxAttempts: nat)
    ensures Run(Initial(maxAttempts), APPROVAL) == AfterApproval(maxAttempts)
  {
    MessageLeads(maxAttempts);
    var s, es := Initial(maxAttempts), APPROVAL;
    var t := s.(state := L.AwaitingRemediationApproval, currentAttempt := 7,
                requests := [ROUND.(notification := Notified, token := Live(9), message := Some(0))],
                rows := [SLACK_ROW], tokens := {9}, messages := [Message(0, 9)]);
    Follow(s, es, 9, t, AfterApproval(maxAttempts));
    assert es[..10] == es;
  }

  // ------------------------------------------------------------------ the wedge

  /** The label lands, GitHub's report of it is processed before our commit, and the dispatcher
      crashes between that commit and the replay. */
  const CRASH_RUN: seq<Event> := [
    Claim(1, 1), Begin(1, true, IssueOpen, NothingFound, 0), PostLabel(1, Posted), LabelWebhook(Some(true), Some(0)),
    ApplyCommit(1), Crash(1)]

  const LABELLED := DECIDED.(labelRequestedAt := Some(0), labelAppliedAt := Some(0), delivery := LabelApplied)

  const CONFIRMED := LABELLED.(delivery := Confirmed, labelConfirmedAt := Some(0))

  /** The issue carries the label and the report is in, but nothing was committed yet. */
  function Landed(maxAttempts: nat): World {
    AfterApproval(maxAttempts).(requests := [DECIDED.(labelRequestedAt := Some(0))],
                                rows := [SLACK_ROW, Row(0, ApplyLabel, Pending, 1, Some(1))],
                                dispatchers := map[1 := Dispatcher(1, LabelPosted)],
                                labelOn := true, labelLanded := {0})
  }

  lemma LabelLands(maxAttempts: nat)
    ensures Run(AfterApproval(maxAttempts), CRASH_RUN[..3]) == Landed(maxAttempts)
  {
    var s, es := AfterApproval(maxAttempts), CRASH_RUN;
    var s1 := s.(rows := [SLACK_ROW, Row(0, ApplyLabel, Pending, 1, Some(1))], dispatchers := map[1 := Dispatcher(1, Claimed)]);
    Follow(s, es, 0, s, s1);
    var s2 := s1.(requests := [DECIDED.(labelRequestedAt := Some(0))], dispatchers := map[1 := Dispatcher(1, LabelPosting)]);
    Follow(s, es, 1, s1, s2);
    Follow(s, es, 2, s2, Landed(maxAttempts));
  }

  /** The world of the crash scenario once GitHub's report is processed, too early to count. */
  function Unexpected(maxAttempts: nat): World {
    Landed(maxAttempts).(webhooks := [Webhook(0, Some(true), Some(0))])
  }

  lemma ReportComesEarly(maxAttempts: nat)
    ensures OnWebhook(Landed(maxAttempts), Some(true), Some(0)) == Unexpected(maxAttempts)
  {}

  lemma ApplyCommits(t: World, w: nat)
    requires |t.requests| == 1 && t.requests[0] in {DECIDED.(labelRequestedAt := Some(0)), CONFIRMED} && t.clock == 0
    requires |t.rows| == 2 && t.rows[1].request == 0
    requires w in t.dispatchers && t.dispatchers[w] == Dispatcher(1, LabelPosted)
    ensures OnApplyCommit(t, w) ==
            t.(requests := [t.requests[0].(labelAppliedAt := Some(0), delivery := LabelApplied)],
               dispatchers := t.dispatchers[w := Dispatcher(1, Replaying)])
  {
    assert OnApplyCommit(t, w).requests == [t.requests[0].(labelAppliedAt := Some(0), delivery := LabelApplied)];
  }

  lemma Dispatched(s: World)
    ensures Next(s, CRASH_RUN[3]) == OnWebhook(s, Some(true), Some(0))
    ensures Next(s, CRASH_RUN[4]) == OnApplyCommit(s, 1)
  {
    hide OnWebhook, OnApplyCommit;
  }

  lemma ReplayIsNext(maxAttempts: nat)
    ensures
      Run(AfterApproval(maxAttempts), CRASH_RUN[..5]) ==
      Unexpected(maxAttempts).(requests := [LABELLED], dispatchers := map[1 := Dispatcher(1, Replaying)])
  {
    var s, s3, s4, es := AfterApproval(maxAttempts), Landed(maxAttempts), Unexpected(maxAttempts), CRASH_RUN;
    assert Run(s, es[..4]) == s4 by {
      hide Next, OnWebhook, Run;
      LabelLands(maxAttempts);
      ReportComesEarly(maxAttempts);
      Dispatched(s3);
      Follow(s, es, 3, s3, s4);
    }
    var s5 := s4.(requests := [LABELLED], dispatchers := map[1 := Dispatcher(1, Replaying)]);
    hide Next, OnApplyCommit, Run;
    assert OnApplyCommit(s4, 1) == s5 by {
      ApplyCommits(s4, 1);
      assert s4.dispatchers[1 := Dispatcher(1, Replaying)] == s5.dispatchers;
    }
    Dispatched(s4);
    Follow(s, es, 4, s4, s5);
  }

  lemma LabelIsLost(maxAttempts: nat)
    ensures
      Run(AfterApproval(maxAttempts), CRASH_RUN) ==
      Unexpected(maxAttempts).(requests := [LABELLED], dispatchers := map[])
  {
    ReplayIsNext(maxAttempts);
    hide Landed;
    var s, es := AfterApproval(maxAttempts), CRASH_RUN;
    var s5 := Unexpected(maxAttempts).(requests := [LABELLED], dispatchers := map[1 := Dispatcher(1, Replaying)]);
    assert s5.dispatchers - {1} == map[];
    Follow(s, es, 5, s5, s5.(dispatchers := map[]));
    assert es[..6] == es;
  }

  lemma {:induction false} Concat(s: World, a: seq<Event>, b: seq<Event>)
    ensures Run(s, a + b) == Run(Run(s, a), b)
  {
    if b == [] {
      assert a + b == a;
    } else {
      hide Next;
      var n := |b| - 1;
      assert (a + b)[..|a| + n] == a + b[..n];
      Concat(s, a, b[..n]);
    }
  }

  /** The promise that a label webhook which beats our commit is replayed fails for this run: our
      label was written and reported, yet the case is wedged. */
  lemma CrashWedges(maxAttempts: nat)
    ensures
      var t := Run(Initial(maxAttempts), APPROVAL + CRASH_RUN);
      && Wedged(t) && 0 in t.labelLanded && (exists h <- t.webhooks :: h.ours == Some(0))
  {
    Concat(Initial(maxAttempts), APPROVAL, CRASH_RUN);
    ApprovalLeads(maxAttempts);
    LabelIsLost(maxAttempts);
    ApprovalSafety.RunKeeps(maxAttempts, APPROVAL + CRASH_RUN);
    var t := Run(Initial(maxAttempts), APPROVAL + CRASH_RUN);
    assert t.requests == [LABELLED] && t.webhooks[0].ours == Some(0);
    hide Inv;
    forall i | 0 <= i < |t.requests| ensures RequestOk(t, i) {}
  }

  // ------------------------------------------------------------------ two dispatchers on one row

  /** The lease of a slow dispatcher lapses during its POST; a second one finds the label on the
      issue, GitHub confirms it, and then the first commits what it still holds in memory. */
  const LAPSED_RUN: seq<Event> := [
    Claim(1, 1), Begin(1, true, IssueOpen, NothingFound, 0), PostLabel(1, Posted),
    Claim(2, 1), Begin(2, true, IssueOpen, NothingFound, 0), LabelWebhook(Some(true), Some(0)), ApplyCommit(1)]

  /** The second dispatcher has committed the label, the first is still to do so. */
  function Doubled(maxAttempts: nat): World {
    Landed(maxAttempts).(requests := [LABELLED], rows := [SLACK_ROW, Row(0, ApplyLabel, Pending, 2, Some(2))],
                         dispatchers := map[1 := Dispatcher(1, LabelPosted), 2 := Dispatcher(1, Replaying)])
  }

  lemma SecondApplies(maxAttempts: nat, t: World)
    requires
      t == Landed(maxAttempts).(rows := [SLACK_ROW, Row(0, ApplyLabel, Pending, 2, Some(2))],
                                dispatchers := map[1 := Dispatcher(1, LabelPosted), 2 := Dispatcher(1, Claimed)])
    ensures OnClaim(Landed(maxAttempts), 2, 1) == t
    ensures OnBegin(t, 2, true, IssueOpen, NothingFound, 0) == Doubled(maxAttempts)
  {
    var u := OnBegin(t, 2, true, IssueOpen, NothingFound, 0);
    assert u.requests == [LABELLED] && u.dispatchers == Doubled(maxAttempts).dispatchers;
    assert OnClaim(Landed(maxAttempts), 2, 1).rows == t.rows;
  }

  lemma SecondClaims(maxAttempts: nat)
    ensures Run(AfterApproval(maxAttempts), LAPSED_RUN[..5]) == Doubled(maxAttempts)
  {
    hide OnClaim, OnBegin;
    var s, es := AfterApproval(maxAttempts), LAPSED_RUN;
    LabelLands(maxAttempts);
    assert es[..3] == CRASH_RUN[..3];
    var s4 := Landed(maxAttempts).(rows := [SLACK_ROW, Row(0, ApplyLabel, Pending, 2, Some(2))],
                                   dispatchers := map[1 := Dispatcher(1, LabelPosted), 2 := Dispatcher(1, Claimed)]);
    SecondApplies(maxAttempts, s4);
    Follow(s, es, 3, Landed(maxAttempts), s4);
    Follow(s, es, 4, s4, Doubled(maxAttempts));
  }

  lemma ReportConfirms(maxAttempts: nat)
    ensures
      OnWebhook(Doubled(maxAttempts), Some(true), Some(0)) ==
      Doubled(maxAttempts).(requests := [CONFIRMED], state := L.RemediationApproved, webhooks := [Webhook(0, Some(true), Some(0))])
  {
    assert OnWebhook(Doubled(maxAttempts), Some(true), Some(0)).requests == [CONFIRMED];
  }

  lemma LapsedIs(s: World)
    ensures Next(s, LAPSED_RUN[5]) == OnWebhook(s, Some(true), Some(0))
    ensures Next(s, LAPSED_RUN[6]) == OnApplyCommit(s, 1)
  {
    hide OnWebhook, OnApplyCommit;
  }

  lemma LapsedLeads(maxAttempts: nat, s6: World)
    requires s6 == OnWebhook(Doubled(maxAttempts), Some(true), Some(0))
    ensures Run(AfterApproval(maxAttempts), LAPSED_RUN) == OnApplyCommit(s6, 1)
  {
    hide Run, Next, OnWebhook, OnApplyCommit, Doubled;
    var s, es := AfterApproval(maxAttempts), LAPSED_RUN;
    SecondClaims(maxAttempts);
    LapsedIs(Doubled(maxAttempts));
    Follow(s, es, 5, Doubled(maxAttempts), s6);
    LapsedIs(s6);
    Follow(s, es, 6, s6, OnApplyCommit(s6, 1));
    assert es[..7] == es;
  }

  /** A confirmed delivery can become unconfirmed again: the case is approved for remediation, but
      no round of it is CONFIRMED. */
  lemma LapsedLeaseUnconfirms(maxAttempts: nat)
    ensures
      var t := Run(Initial(maxAttempts), APPROVAL + LAPSED_RUN);
      && L.InRemediation(t.state)
      && t.requests != [] && Current(t).delivery == LabelApplied && Current(t).labelConfirmedAt.Some?
      && (forall r <- t.requests :: r.delivery != Confirmed)
  {
    hide Run, Next, OnApplyCommit;
    Concat(Initial(maxAttempts), APPROVAL, LAPSED_RUN);
    ApprovalLeads(maxAttempts);
    var s6 := Doubled(maxAttempts).(requests := [CONFIRMED], state := L.RemediationApproved,
                                    webhooks := [Webhook(0, Some(true), Some(0))]);
    ReportConfirms(maxAttempts);
    LapsedLeads(maxAttempts, s6);
    ApplyCommits(s6, 1);
    assert OnApplyCommit(s6, 1).requests == [CONFIRMED.(delivery := LabelApplied)];
  }
}

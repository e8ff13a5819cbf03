/** A label webhook whose job has read the case before it moved on: the round is confirmed, the case
    is left where it is, and nothing that GitHub reports makes up for it. */
module StaleConfirmation {
  import opened Wrappers
  import opened Approvals
  import opened ConfirmedDelivery
  import opened ApprovalDesk
  import opened ApprovalScenarios
  import L = Lifecycle

  /** The world after the first `n` events of a run from `t`. */
  function After(t: World, es: seq<Event>, n: nat): World
    requires n <= |es|
  {
    Run(t, es[..n])
  }

  lemma AfterNext(t: World, es: seq<Event>, n: nat)
    requires n < |es|
    ensures After(t, es, n + 1) == Next(After(t, es, n), es[n])
  {
    hide Next;
    assert es[..n + 1][..n] == es[..n];
  }

  lemma {:induction false} StaysEarned(t: World, es: seq<Event>, n: nat, i: nat)
    requires n <= |es| && i < |t.requests| && Earned(t.requests[i])
    ensures i < |After(t, es, n).requests| && Earned(After(t, es, n).requests[i])
  {
    hide Next, Earned;
    if n > 0 {
      StaysEarned(t, es, n - 1, i);
      AfterNext(t, es, n - 1);
      EarnedStays(After(t, es, n - 1), es[n - 1], i);
    } else {
      assert After(t, es, 0) == t;
    }
  }

  /** Over any further run, from any world: a confirmed round whose label is on record stays
      confirmed throughout exactly if no label write of it is committed. */
  lemma {:induction false} ConfirmedFromHereExactly(t: World, es: seq<Event>, n: nat, i: nat)
    requires n <= |es| && ConfirmedAt(t, i) && Earned(t.requests[i])
    ensures (forall m | 0 <= m <= n :: ConfirmedAt(After(t, es, m), i)) <==>
            (forall m | 0 <= m < n :: !CommitsLabel(After(t, es, m), es[m], i))
  {
    hide Next, CommitsLabel, Earned, Run;
    if n > 0 {
      ConfirmedFromHereExactly(t, es, n - 1, i);
      StaysEarned(t, es, n - 1, i);
      AfterNext(t, es, n - 1);
      hide After;
      if ConfirmedAt(After(t, es, n - 1), i) { KeptOnce(After(t, es, n - 1), es[n - 1], i); }
    } else {
      assert After(t, es, 0) == t by { Begins(t, es); }
    }
  }

  lemma KeptOnce(s: World, e: Event, i: nat)
    requires i < |s.requests| && Earned(s.requests[i]) && ConfirmedAt(s, i)
    ensures ConfirmedAt(Next(s, e), i) <==> !CommitsLabel(s, e, i)
  {
    hide Next, CommitsLabel;
    StaysRequested(s, e);
    StepOnDelivery(s, e, i);
  }

  lemma EarnedStays(s: World, e: Event, i: nat)
    requires i < |s.requests| && Earned(s.requests[i])
    ensures i < |Next(s, e).requests| && Earned(Next(s, e).requests[i])
  {
    hide Next, CommitsLabel;
    StaysRequested(s, e);
    StepOnDelivery(s, e, i);
  }

  /** A confirmation of the newest round, by whatever the confirming job has read. */
  predicate Confirms(s: World, shows: Option<bool>, seen: L.CaseState) { Confirmable(s.(state := seen), shows) }

  lemma ConfirmedIsNotAgain(s: World, i: nat)
    requires ConfirmedAt(s, i) && i == |s.requests| - 1
    ensures forall again: Option<bool>, read: L.CaseState :: ConfirmSeen(s, again, read) == s
  {}

  lemma ConfirmationIsEarned(s: World, shows: Option<bool>, seen: L.CaseState)
    requires Confirms(s, shows, seen)
    ensures
      var t := ConfirmSeen(s, shows, seen);
      && s.requests != [] && |t.requests| == |s.requests| && ConfirmedAt(t, |t.requests| - 1) && Earned(t.requests[|t.requests| - 1])
      && (t.state == L.RemediationApproved <==> s.state == seen || s.state == L.RemediationApproved)
  {}

  /** A confirmation moves the case exactly if it is where it was read (or is approved already). And
      over every further run in which no label write of the round is committed, no delivery and no
      replay confirms the round again, whatever their jobs have read. */
  lemma StaleConfirmationWedges(s: World, shows: Option<bool>, seen: L.CaseState, es: seq<Event>)
    requires Confirms(s, shows, seen)
    requires
      var t := ConfirmSeen(s, shows, seen);
      forall m | 0 <= m < |es| :: !CommitsLabel(After(t, es, m), es[m], |s.requests| - 1)
    ensures
      var t := ConfirmSeen(s, shows, seen);
      var u := Run(t, es);
      && (t.state == L.RemediationApproved <==> s.state == seen || s.state == L.RemediationApproved)
      && ConfirmedAt(u, |s.requests| - 1)
      && (|u.requests| == |s.requests| ==> forall again: Option<bool>, read: L.CaseState :: ConfirmSeen(u, again, read) == u)
  {
    hide Run, CommitsLabel, Confirmable, Earned, ConfirmSeen;
    ConfirmationIsEarned(s, shows, seen);
    var t := ConfirmSeen(s, shows, seen);
    var i := |s.requests| - 1;
    ConfirmedFromHereExactly(t, es, |es|, i);
    assert es[..|es|] == es;
    var u := After(t, es, |es|);
    if |u.requests| == |s.requests| { ConfirmedIsNotAgain(u, i); }
  }

  // ------------------------------------------------------------------ a run

  /** The label is refused for good, which parks the case; an operator has it tried again, and this
      time it lands. */
  const RETRY_RUN: seq<Event> := [
    Claim(1, 1), Begin(1, false, IssueOpen, NothingFound, 0), Fail(1), RetryOutbox(1),
    Claim(1, 1), Begin(1, true, IssueOpen, NothingFound, 0), PostLabel(1, Posted), ApplyCommit(1)]

  const LABEL_ROW := Row(0, ApplyLabel, Pending, 0, None)

  const HELD_ROW := Row(0, ApplyLabel, Pending, 1, Some(1))

  function Parked(m: nat, r: Request, row: Row, dispatchers: map<nat, Dispatcher>): World {
    AfterApproval(m).(state := L.ApprovalDeliveryFailed, requests := [r], rows := [SLACK_ROW, row], dispatchers := dispatchers)
  }

  lemma Refuses(m: nat)
    ensures
      var s := AfterApproval(m);
      var held := s.(rows := [SLACK_ROW, HELD_ROW], dispatchers := map[1 := Dispatcher(1, Claimed)]);
      && OnClaim(s, 1, 1) == held
      && OnBegin(held, 1, false, IssueOpen, NothingFound, 0) == held.(dispatchers := map[1 := Dispatcher(1, Failing(true))])
  {
    assert OnClaim(AfterApproval(m), 1, 1).rows == [SLACK_ROW, HELD_ROW];
  }

  lemma FailsForGood(m: nat)
    ensures
      var failing := AfterApproval(m).(rows := [SLACK_ROW, HELD_ROW], dispatchers := map[1 := Dispatcher(1, Failing(true))]);
      OnFail(failing, 1) == Parked(m, DECIDED.(delivery := Undelivered), HELD_ROW.(status := Failed, claimedBy := None), map[])
  {
    var failing := AfterApproval(m).(rows := [SLACK_ROW, HELD_ROW], dispatchers := map[1 := Dispatcher(1, Failing(true))]);
    var t := OnFail(failing, 1);
    assert t.requests == [DECIDED.(delivery := Undelivered)] && t.dispatchers == map[];
    assert t.rows == [SLACK_ROW, HELD_ROW.(status := Failed, claimedBy := None)];
  }

  lemma IsTriedAgain(m: nat)
    ensures
      var failed := Parked(m, DECIDED.(delivery := Undelivered), HELD_ROW.(status := Failed, claimedBy := None), map[]);
      && OnRetry(failed, 1) == Parked(m, DECIDED, LABEL_ROW, map[])
      && OnClaim(Parked(m, DECIDED, LABEL_ROW, map[]), 1, 1) == Parked(m, DECIDED, HELD_ROW, map[1 := Dispatcher(1, Claimed)])
  {
    var failed := Parked(m, DECIDED.(delivery := Undelivered), HELD_ROW.(status := Failed, claimedBy := None), map[]);
    assert OnRetry(failed, 1).requests == [DECIDED] && OnRetry(failed, 1).rows == [SLACK_ROW, LABEL_ROW];
    assert OnClaim(Parked(m, DECIDED, LABEL_ROW, map[]), 1, 1).rows == [SLACK_ROW, HELD_ROW];
  }

  /** The label is on its way, and on record. */
  function Landing(m: nat, work: Work): World {
    Parked(m, DECIDED.(labelRequestedAt := Some(0)), HELD_ROW, map[1 := Dispatcher(1, work)])
  }

  lemma Lands(m: nat)
    ensures OnBegin(Parked(m, DECIDED, HELD_ROW, map[1 := Dispatcher(1, Claimed)]), 1, true, IssueOpen, NothingFound, 0) == Landing(m, LabelPosting)
    ensures OnPostLabel(Landing(m, LabelPosting), 1, Posted) == Landing(m, LabelPosted).(labelOn := true, labelLanded := {0})
  {
    var t := OnBegin(Parked(m, DECIDED, HELD_ROW, map[1 := Dispatcher(1, Claimed)]), 1, true, IssueOpen, NothingFound, 0);
    assert t.requests == [DECIDED.(labelRequestedAt := Some(0))];
  }

  function Recorded(m: nat): World {
    Parked(m, LABELLED, HELD_ROW, map[1 := Dispatcher(1, Replaying)]).(labelOn := true, labelLanded := {0})
  }

  lemma Records(m: nat)
    ensures OnApplyCommit(Landing(m, LabelPosted).(labelOn := true, labelLanded := {0}), 1) == Recorded(m)
  {
    var t := OnApplyCommit(Landing(m, LabelPosted).(labelOn := true, labelLanded := {0}), 1);
    assert t.requests == [LABELLED];
  }

  lemma NextIsHandler(s: World, e: Event)
    ensures e.Claim? ==> Next(s, e) == OnClaim(s, e.w, e.row)
    ensures e.Begin? ==> Next(s, e) == OnBegin(s, e.w, e.permitted, e.issue, e.search, e.token)
    ensures e.Fail? ==> Next(s, e) == OnFail(s, e.w)
    ensures e.RetryOutbox? ==> Next(s, e) == OnRetry(s, e.row)
    ensures e.PostLabel? ==> Next(s, e) == OnPostLabel(s, e.w, e.posted)
    ensures e.ApplyCommit? ==> Next(s, e) == OnApplyCommit(s, e.w)
  {
    hide OnClaim, OnBegin, OnFail, OnRetry, OnPostLabel, OnApplyCommit;
  }

  lemma RunRetries(m: nat)
    ensures Run(AfterApproval(m), RETRY_RUN) == Recorded(m)
  {
    hide Next, Run, OnClaim, OnBegin, OnFail, OnRetry, OnPostLabel, OnApplyCommit, Parked, Landing, Recorded, AfterApproval;
    var s, es := AfterApproval(m), RETRY_RUN;
    var held := s.(rows := [SLACK_ROW, HELD_ROW], dispatchers := map[1 := Dispatcher(1, Claimed)]);
    var failing := s.(rows := [SLACK_ROW, HELD_ROW], dispatchers := map[1 := Dispatcher(1, Failing(true))]);
    var failed := Parked(m, DECIDED.(delivery := Undelivered), HELD_ROW.(status := Failed, claimedBy := None), map[]);
    var queued := Parked(m, DECIDED, LABEL_ROW, map[]);
    var again := Parked(m, DECIDED, HELD_ROW, map[1 := Dispatcher(1, Claimed)]);
    var posted := Landing(m, LabelPosted).(labelOn := true, labelLanded := {0});
    Refuses(m);
    FailsForGood(m);
    IsTriedAgain(m);
    Lands(m);
    Records(m);
    assert Run(s, es[..0]) == s by { Begins(s, es); }
    NextIsHandler(s, es[0]);
    Follow(s, es, 0, s, held);
    NextIsHandler(held, es[1]);
    Follow(s, es, 1, held, failing);
    NextIsHandler(failing, es[2]);
    Follow(s, es, 2, failing, failed);
    NextIsHandler(failed, es[3]);
    Follow(s, es, 3, failed, queued);
    NextIsHandler(queued, es[4]);
    Follow(s, es, 4, queued, again);
    NextIsHandler(again, es[5]);
    Follow(s, es, 5, again, Landing(m, LabelPosting));
    NextIsHandler(Landing(m, LabelPosting), es[6]);
    Follow(s, es, 6, Landing(m, LabelPosting), posted);
    NextIsHandler(posted, es[7]);
    Follow(s, es, 7, posted, Recorded(m));
    assert es[..8] == es;
  }

  lemma Begins(s: World, es: seq<Event>)
    ensures Run(s, es[..0]) == s
  {}

  /** A webhook job that has read the case when the click approved it, and goes on when the label of
      the second try is on record: the round is CONFIRMED, the case stays parked in
      APPROVAL_DELIVERY_FAILED, and no report of the label confirms the round any more. */
  lemma StaleReadParksForGood(m: nat)
    ensures
      var read := Run(Initial(m), APPROVAL);
      var s := Run(Initial(m), APPROVAL + RETRY_RUN);
      var t := ConfirmSeen(s, Some(true), read.state);
      && Confirms(s, Some(true), read.state) && t.state == L.ApprovalDeliveryFailed
      && |t.requests| == 1 && t.requests[0].delivery == Confirmed
      && (forall again: Option<bool>, now: L.CaseState :: ConfirmSeen(t, again, now) == t)
  {
    hide Run;
    Concat(Initial(m), APPROVAL, RETRY_RUN);
    ApprovalLeads(m);
    RunRetries(m);
  }
}

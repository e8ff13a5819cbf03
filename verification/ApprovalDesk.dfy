/** The approval rows as the program updates them in place, each operation proved to be the step of
    the protocol that it stands for. */
module ApprovalDesk {
  import opened Wrappers
  import opened Approvals
  import L = Lifecycle

  /** What a confirmation leaves that has read the case as `seen`: the request is confirmed by what
      was seen, the case moves only if it still is where it was. */
  function ConfirmSeen(s: World, shows: Option<bool>, seen: L.CaseState): World {
    if !Confirmable(s.(state := seen), shows) then s
    else Confirm(s.(state := seen), shows).(state := if s.state == seen then L.RemediationApproved else s.state)
  }

  /** Whoever has read the case as it is confirms as the protocol does. */
  lemma SeenNow(s: World, shows: Option<bool>)
    ensures ConfirmSeen(s, shows, s.state) == Confirm(s, shows) && s.(state := s.state) == s
  {}

  /** Request `i` was undecided and is decided now, its token is not live any more; the others are as
      they were. */
  predicate Verdict(before: seq<Approvals.Request>, after: seq<Approvals.Request>, i: nat, decision: Decision) {
    && |after| == |before| && i < |before| && before[i].decision == Undecided
    && after[i].decision == decision && !after[i].token.Live? && after[i].attempt == before[i].attempt
    && forall j | 0 <= j < |before| && j != i :: after[j] == before[j]
  }

  /** The answer to a click tells what became of the request, of the case and of the rows. */
  ghost predicate Tells(s: World, t: World, click: Click, outcome: Outcome) {
    && t.clicks == s.clicks + (if outcome in {UnknownAction, UnknownToken, Duplicate} then {} else {click})
    && (outcome == Duplicate ==> click in s.clicks)
    && (outcome == ApprovedNow ==>
          && click.action == Approve && t.state == s.state
          && exists i :: Verdict(s.requests, t.requests, i, Approved) && t.rows == s.rows + [Row(i, ApplyLabel, Pending, 0, None)])
    && (outcome == RejectedNow ==>
          && click.action == Reject && t.state == L.RemediationRejected
          && exists i :: Verdict(s.requests, t.requests, i, Rejected) && t.rows == s.rows + [Row(i, RejectionComment, Pending, 0, None)])
    && (outcome !in {ApprovedNow, RejectedNow} ==>
          && t.state == s.state && t.rows == s.rows
          && (t.requests == s.requests || exists i :: Verdict(s.requests, t.requests, i, Expired)))
  }

  lemma AnswersTell(s: World, click: Click, authorized: bool, lapsed: bool)
    ensures Tells(s, OnClick(s, click, authorized, lapsed), click, ClickOutcome(s, click, authorized, lapsed))
  {
    hide RequestOf, IsCurrent;
    var outcome, t := ClickOutcome(s, click, authorized, lapsed), OnClick(s, click, authorized, lapsed);
    if outcome in {ApprovedNow, RejectedNow} || t.requests != s.requests {
      var i := Lookup(s, click.token).value;
      assert Verdict(s.requests, t.requests, i, t.requests[i].decision);
    }
  }

  class Desk {
    const maxAttempts: nat
    var state: L.CaseState
    var currentAttempt: nat
    var requests: seq<Approvals.Request>
    var rows: seq<Row>
    var dispatchers: map<nat, Dispatcher>
    var webhooks: seq<Webhook>
    var clicks: set<Click>
    var tokens: set<nat>
    var clock: nat
    var labelOn: bool
    var labelLanded: set<nat>
    var comments: seq<nat>
    var messages: seq<Message>

    ghost function View(): World
      reads this
    {
      World(maxAttempts, state, currentAttempt, requests, rows, dispatchers, webhooks, clicks, tokens, clock, labelOn,
            labelLanded, comments, messages)
    }

    constructor (maxAttempts: nat)
      ensures View() == Initial(maxAttempts)
    {
      this.maxAttempts := maxAttempts;
      state, currentAttempt, requests, rows := L.Received, 0, [], [];
      dispatchers, webhooks, clicks, tokens, clock := map[], [], {}, {}, 0;
      labelOn, labelLanded, comments, messages := false, {}, [], [];
    }

    /** `create_approval_request`: an attempt that has a round keeps it. Otherwise it gets its own,
        undecided and with a Slack message to be sent; the undecided ones are superseded, their tokens
        resolve no more, and no other round is touched. */
    method CreateApprovalRequest(attempt: nat)
      modifies this`requests, this`rows
      ensures View() == old(View()).(requests := requests, rows := rows)
      ensures L.Allowed(state, L.Triaged, false) ==>
                View().(state := L.AwaitingRemediationApproval) == OnNewRound(old(View()), attempt)
      ensures (exists r <- old(requests) :: r.attempt == attempt) ==> requests == old(requests) && rows == old(rows)
      ensures !(exists r <- old(requests) :: r.attempt == attempt) ==>
                && |requests| == |old(requests)| + 1
                && requests[|old(requests)|] == FreshRequest(attempt)
                && rows == old(rows) + [Row(|old(requests)|, SlackRequest, Pending, 0, None)]
                && forall j | 0 <= j < |old(requests)| ::
                     requests[j] == if old(requests)[j].decision == Undecided
                                    then old(requests)[j].(decision := Superseded, token := NoToken) else old(requests)[j]
    {
      hide L.Allowed;
      var i := 0;
      while i < |requests|
        invariant 0 <= i <= |requests| && forall j | 0 <= j < i :: requests[j].attempt != attempt
      {
        if requests[i].attempt == attempt {
          assert requests[i] in requests;
          return;
        }
        i := i + 1;
      }
      var n := 0;
      while n < |requests|
        invariant 0 <= n <= |requests| == |old(requests)| && rows == old(rows)
        invariant forall j | 0 <= j < n :: requests[j] == Supersede(old(requests)[j])
        invariant forall j | n <= j < |requests| :: requests[j] == old(requests)[j]
      {
        if requests[n].decision == Undecided {
          requests := requests[n := requests[n].(decision := Superseded, token := NoToken)];
        }
        n := n + 1;
      }
      rows := rows + [Row(|requests|, SlackRequest, Pending, 0, None)];
      requests := requests + [FreshRequest(attempt)];
    }

    /** `process_slack_action`. The answer tells what became of the request: approved, with a label
        row and the case where it was; rejected, with a comment row and the case rejected; or no
        verdict, and then neither the case nor the rows have changed. */
    method ProcessSlackAction(click: Click, authorized: bool, lapsed: bool) returns (outcome: Outcome)
      modifies this`requests, this`rows, this`clicks, this`state
      ensures View() == OnClick(old(View()), click, authorized, lapsed)
      ensures outcome == ClickOutcome(old(View()), click, authorized, lapsed)
      ensures Tells(old(View()), View(), click, outcome)
    {
      hide RequestOf, Tells;
      AnswersTell(View(), click, authorized, lapsed);
      if click.action == OtherAction {
        return UnknownAction;
      }
      var found := RequestOf(requests, click.token, |requests|);
      if found.None? {
        return UnknownToken;
      }
      var i := found.value;
      if click in clicks {
        return Duplicate;
      }
      clicks := clicks + {click};
      if !authorized {
        return Unauthorized;
      }
      if requests[i].decision == Undecided && lapsed {
        requests := requests[i := RetireToken(requests[i]).(decision := Expired)];
        return ExpiredToken;
      }
      if requests[i].decision != Undecided {
        return if requests[i].decision == Expired then ExpiredToken else AlreadyDecided;
      }
      if !(i == |requests| - 1 && requests[i].attempt == currentAttempt) {
        return StaleToken;
      }
      if state != L.AwaitingRemediationApproval {
        return IncompatibleState;
      }
      if click.action == Approve {
        requests := requests[i := RetireToken(requests[i]).(decision := Approved, delivery := Queued)];
        rows := rows + [Row(i, ApplyLabel, Pending, 0, None)];
        return ApprovedNow;
      }
      requests := requests[i := RetireToken(requests[i]).(decision := Rejected, delivery := NotRequested)];
      state := L.RemediationRejected;
      rows := rows + [Row(i, RejectionComment, Pending, 0, None)];
      return RejectedNow;
    }

    /** `expire_request`: only an undecided request expires, and its token is not live any more. */
    method ExpireRequest(i: nat) returns (expired: bool)
      requires i < |requests|
      modifies this`requests
      ensures View() == OnExpire(old(View()), i)
      ensures |requests| == |old(requests)| && forall j | 0 <= j < |requests| && j != i :: requests[j] == old(requests)[j]
      ensures if expired then requests[i].decision == Expired && !requests[i].token.Live? else requests[i] == old(requests)[i]
      ensures expired <==> old(requests)[i].decision == Undecided
    {
      expired := requests[i].decision == Undecided;
      if expired {
        requests := requests[i := RetireToken(requests[i]).(decision := Expired)];
      }
    }

    /** `confirm_label_webhook`, by a caller that has read the case as `seen`: the request is locked
        and read again, the case is not, so its transition may find that the case has moved on. The
        request then stays confirmed, although the caller is told that nothing was. */
    method ConfirmLabelWebhook(shows: Option<bool>, seen: L.CaseState) returns (confirmed: bool)
      modifies this`requests, this`state
      ensures View() == ConfirmSeen(old(View()), shows, seen)
      ensures
        var last := |old(requests)| - 1;
        var confirms :=
          && old(requests) != [] && old(requests)[last].decision == Approved && old(requests)[last].attempt == currentAttempt
          && seen in {L.AwaitingRemediationApproval, L.ApprovalDeliveryFailed}
          && old(requests)[last].labelAppliedAt.Some? && old(requests)[last].delivery == LabelApplied && shows != Some(false);
        && (confirmed <==> confirms && old(state) == seen)
        && state == (if confirmed then L.RemediationApproved else old(state))
        && requests == if confirms then old(requests)[last := old(requests)[last].(delivery := Confirmed, labelConfirmedAt := Some(clock))]
                       else old(requests)
      ensures confirmed <==> Confirmable(old(View()).(state := seen), shows) && old(state) == seen
    {
      if requests == [] || requests[|requests| - 1].decision != Approved {
        return false;
      }
      var i := |requests| - 1;
      if requests[i].attempt != currentAttempt {
        return false;
      }
      if seen != L.AwaitingRemediationApproval && seen != L.ApprovalDeliveryFailed {
        return false;
      }
      if requests[i].labelAppliedAt.None? || requests[i].delivery != LabelApplied {
        return false;
      }
      if shows == Some(false) {
        return false;
      }
      requests := requests[i := requests[i].(delivery := Confirmed, labelConfirmedAt := Some(clock))];
      if state != seen {
        return false;
      }
      state := L.RemediationApproved;
      return true;
    }

    /** `replay_label_webhooks_after_delivery`: the first processed delivery that still confirms the
        label ends the loop, and at most one confirmation is made. */
    method ReplayLabelWebhooks(i: nat) returns (replayed: bool)
      requires i < |requests|
      modifies this`requests, this`state
      ensures View() == if exists h <- old(webhooks) :: Replayable(old(requests)[i], h) then Confirm(old(View()), None) else old(View())
      ensures replayed <==> (exists h <- old(webhooks) :: Replayable(old(requests)[i], h)) && Confirmable(old(View()), None)
    {
      replayed := false;
      if requests[i].labelRequestedAt.None? || requests[i].labelAppliedAt.None? {
        return;
      }
      var n := 0;
      while n < |webhooks|
        invariant 0 <= n <= |webhooks| && View() == old(View())
        invariant forall m | 0 <= m < n :: Replayable(requests[i], webhooks[m]) ==> !Confirmable(View(), None)
      {
        var h := webhooks[n];
        assert h in webhooks;
        if h.processedAt >= requests[i].labelRequestedAt.value {
          ShowsOnlyDenies(View(), h.shows);
          SeenNow(View(), h.shows);
          var confirmed := ConfirmLabelWebhook(h.shows, state);
          if confirmed {
            return true;
          }
        }
        n := n + 1;
      }
      NoneLeft(View(), requests[i]);
    }

    /** `_fail` for a claimed row: it fails for good or after all its attempts, and otherwise waits
        for the next one. A label that was never written is then undelivered, and the case that
        awaits its approval with it; a label that was written is not. */
    method FailRow(w: nat, permanent: bool)
      requires Busy(View(), w) && dispatchers[w].work == Failing(permanent)
      modifies this`rows, this`requests, this`state, this`dispatchers
      ensures View() == OnFail(old(View()), w)
      ensures
        var k := old(dispatchers)[w].row;
        var row := old(rows)[k];
        var i := row.request;
        var fails := permanent || row.attempts >= maxAttempts;
        && w !in dispatchers && |requests| == |old(requests)|
        && rows == old(rows)[k := row.(status := if fails then RowStatus.Failed else row.status, claimedBy := None)]
        && var undelivered := fails && row.kind == ApplyLabel && old(requests)[i].labelAppliedAt.None?;
           && (state == if undelivered && old(state) == L.AwaitingRemediationApproval then L.ApprovalDeliveryFailed else old(state))
           && (requests[i].delivery == if undelivered then Undelivered else old(requests)[i].delivery)
           && (requests[i].notification ==
               if fails && row.kind == SlackRequest then NotifyFailed else old(requests)[i].notification)
           && requests == old(requests)[i := old(requests)[i].(delivery := requests[i].delivery, notification := requests[i].notification)]
    {
      var k := dispatchers[w].row;
      var row := rows[k];
      var i := row.request;
      if permanent || row.attempts >= maxAttempts {
        rows := rows[k := row.(status := Failed, claimedBy := None)];
        match row.kind {
          case SlackRequest =>
            requests := requests[i := requests[i].(notification := NotifyFailed)];
          case ApplyLabel =>
            if requests[i].labelAppliedAt.None? {
              requests := requests[i := requests[i].(delivery := Undelivered)];
              if state == L.AwaitingRemediationApproval {
                state := L.ApprovalDeliveryFailed;
              }
            }
          case RejectionComment =>
        }
      } else {
        rows := rows[k := row.(claimedBy := None)];
      }
      dispatchers := dispatchers - {w};
    }
  }

  /** The snapshot of a delivery can only deny the label; otherwise it does not matter. */
  lemma ShowsOnlyDenies(s: World, shows: Option<bool>)
    ensures shows != Some(false) ==> Confirm(s, shows) == Confirm(s, None) && (Confirmable(s, shows) <==> Confirmable(s, None))
    ensures shows == Some(false) ==> !Confirmable(s, shows)
  {}

  lemma NoneLeft(s: World, r: Approvals.Request)
    requires forall m | 0 <= m < |s.webhooks| :: Replayable(r, s.webhooks[m]) ==> !Confirmable(s, None)
    ensures (exists h <- s.webhooks :: Replayable(r, h)) ==> Confirm(s, None) == s && !Confirmable(s, None)
  {
    if h :| h in s.webhooks && Replayable(r, h) {
      var m :| 0 <= m < |s.webhooks| && s.webhooks[m] == h;
    }
  }
}

/** The race between our label write and the webhook that reports it. While the round stays
    current, every interleaving ends in REMEDIATION_APPROVED, unless a crash falls between the
    commit of the label and the replay; exactly then the case waits for ever. */
module LabelRace {
  import opened Wrappers
  import opened Approvals
  import opened ApprovalSafety
  import opened ApprovalDelivery
  import L = Lifecycle

  // ------------------------------------------------------------------ vocabulary

  /** The approved round at stake, the newest. */
  function Current(s: World): Request
    requires s.requests != []
  {
    s.requests[|s.requests| - 1]
  }

  predicate Awaits(s: World) { s.state == L.AwaitingRemediationApproval || s.state == L.ApprovalDeliveryFailed }

  predicate LabelWork(work: Work) { work == LabelPosting || work == LabelPosted || work == Replaying }

  ghost predicate ReplayComing(s: World) { exists w <- s.dispatchers :: s.dispatchers[w].work == Replaying }

  predicate Reported(s: World) { s.requests != [] && exists h <- s.webhooks :: Replayable(Current(s), h) }

  /** The label is on record and GitHub has reported it, but the round is not confirmed yet. */
  predicate Owed(s: World) { Awaits(s) && Reported(s) && Current(s).labelConfirmedAt.None? }

  /** What may happen while the round stays current and the case waits: anything but a re-triage,
      a move of the case by others, or the removal of the label; our own event shows the label. */
  ghost predicate Steady(s: World, e: Event) {
    && Leased(s, e) && SearchesExactly(s, e)
    && !e.NewAttempt? && !e.NewRound? && !e.CaseMoves? && e != LabelChanges(false)
    && (e.LabelWebhook? && s.requests != [] && e.ours == Some(|s.requests| - 1) ==> e.shows != Some(false))
  }

  ghost predicate SteadyRun(s: World, es: seq<Event>) {
    es == [] || (SteadyRun(s, es[..|es| - 1]) && Steady(Run(s, es[..|es| - 1]), es[|es| - 1]))
  }

  /** GitHub does not report a write that has not landed. */
  predicate Untold(s: World, ours: Option<nat>) { ours.Some? && ours.value !in s.labelLanded }

  /** Whether the replay is lost after `e`: a crash hit it while the webhook was already processed,
      and no delivery has confirmed the label since. */
  predicate LostNext(s: World, e: Event, lost: bool) {
    match e
    case Crash(w) => lost || (w in s.dispatchers && s.dispatchers[w].work == Replaying && Owed(s))
    case LabelWebhook(shows, ours) => lost && (shows == Some(false) || Untold(s, ours))
    case _ => lost
  }

  predicate Lost(s: World, es: seq<Event>) {
    es != [] && LostNext(Run(s, es[..|es| - 1]), es[|es| - 1], Lost(s, es[..|es| - 1]))
  }

  // ------------------------------------------------------------------ the invariant

  ghost predicate RoundOk(s: World) {
    && s.requests != [] && Current(s).decision == Approved && IsCurrent(s, |s.requests| - 1)
    && (if Current(s).labelConfirmedAt.Some? then s.state == L.RemediationApproved else Awaits(s))
  }

  /** Our write and our events belong to the request of this round. */
  ghost predicate OursOk(s: World)
    requires s.requests != []
  {
    var r := Current(s);
    && (r.labelAppliedAt.Some? ==> r.labelRequestedAt.Some?)
    && (r.labelRequestedAt.Some? ==> r.labelRequestedAt.value <= s.clock)
    && (|s.requests| - 1 in s.labelLanded ==> s.labelOn && r.labelRequestedAt.Some?)
    && (forall h <- s.webhooks :: h.ours == Some(|s.requests| - 1) ==>
          |s.requests| - 1 in s.labelLanded && r.labelRequestedAt.Some? && h.processedAt >= r.labelRequestedAt.value && h.shows != Some(false))
    && (forall w <- s.dispatchers :: LabelWork(s.dispatchers[w].work) ==>
          && s.dispatchers[w].row < |s.rows| && s.rows[s.dispatchers[w].row].request == |s.requests| - 1
          && r.labelRequestedAt.Some?)
  }

  ghost predicate RaceOk(s: World, lost: bool) {
    && (Owed(s) ==> ReplayComing(s) || lost)
    && (lost ==> Owed(s) && !ReplayComing(s))
  }

  ghost predicate Race(s: World, lost: bool) { RoundOk(s) && OursOk(s) && RaceOk(s, lost) }

  /** The round has just been approved, after any number of earlier rounds: its label is not
      requested, and nothing is in flight. */
  ghost predicate JustApproved(s: World) {
    && Inv(s) && Once(s)
    && s.requests != [] && Current(s).decision == Approved && IsCurrent(s, |s.requests| - 1)
    && s.state == L.AwaitingRemediationApproval
    && Current(s).labelRequestedAt.None? && Current(s).labelAppliedAt.None?
    && (forall w <- s.dispatchers :: !LabelWork(s.dispatchers[w].work))
    && |s.requests| - 1 !in s.labelLanded && (forall h <- s.webhooks :: h.ours != Some(|s.requests| - 1))
  }

  lemma RaceStarts(s: World)
    requires JustApproved(s)
    ensures Race(s, false)
  {
    hide Inv, Exclusive, RemotesOk, WorksOk;
    assert RequestOk(s, |s.requests| - 1);
  }

  // ------------------------------------------------------------------ steps that leave the label alone

  predicate SameLabel(a: Request, b: Request) {
    && b.decision == a.decision && b.attempt == a.attempt && b.labelRequestedAt == a.labelRequestedAt
    && b.labelAppliedAt == a.labelAppliedAt && b.labelConfirmedAt == a.labelConfirmedAt
  }

  ghost predicate Aside(s: World, t: World) {
    && |t.requests| == |s.requests| && s.requests != [] && SameLabel(Current(s), Current(t))
    && t.currentAttempt == s.currentAttempt && (t.state == s.state || (Awaits(s) && Awaits(t)))
    && t.webhooks == s.webhooks && s.clock <= t.clock && t.labelLanded == s.labelLanded && (s.labelOn ==> t.labelOn)
    && SameRows(s, t)
    && (forall w <- t.dispatchers :: LabelWork(t.dispatchers[w].work) ==> w in s.dispatchers && t.dispatchers[w] == s.dispatchers[w])
    && (ReplayComing(s) ==> ReplayComing(t))
  }

  lemma AsideKeeps(s: World, t: World, lost: bool)
    requires Race(s, lost) && Aside(s, t)
    ensures Race(t, lost)
  {
    assert forall h <- s.webhooks :: Replayable(Current(s), h) == Replayable(Current(t), h);
    forall w <- t.dispatchers | LabelWork(t.dispatchers[w].work)
      ensures t.dispatchers[w].row < |t.rows| && t.rows[t.dispatchers[w].row].request == |t.requests| - 1
    {
      assert t.rows[t.dispatchers[w].row].request == s.rows[s.dispatchers[w].row].request;
    }
    if ReplayComing(t) {
      var w :| w in t.dispatchers && t.dispatchers[w].work == Replaying;
      assert s.dispatchers[w].work == Replaying;
    }
  }

  /** A step of dispatcher `w` that neither was nor becomes part of the label write. */
  lemma AsideBy(s: World, t: World, w: nat)
    requires w in s.dispatchers && s.dispatchers[w].work != Replaying
    requires || t.dispatchers == s.dispatchers - {w}
             || (w in t.dispatchers && t.dispatchers == s.dispatchers[w := t.dispatchers[w]] &&
                 !LabelWork(t.dispatchers[w].work))
    requires |t.requests| == |s.requests| && s.requests != [] && SameLabel(Current(s), Current(t))
    requires t.currentAttempt == s.currentAttempt && (t.state == s.state || (Awaits(s) && Awaits(t)))
    requires t.webhooks == s.webhooks && s.clock == t.clock && t.labelLanded == s.labelLanded && s.labelOn == t.labelOn
    requires SameRows(s, t)
    ensures Aside(s, t)
  {
    if ReplayComing(s) {
      var v :| v in s.dispatchers && s.dispatchers[v].work == Replaying;
      assert t.dispatchers[v] == s.dispatchers[v];
    }
  }

  lemma AsideThen(s: World, m: World, t: World)
    requires Aside(s, m) && Aside(m, t)
    ensures Aside(s, t)
  {}

  lemma AsideSet(s: World, i: nat, r: Request)
    requires i < |s.requests| && SameLabel(s.requests[i], r)
    ensures Aside(s, SetRequest(s, i, r))
  {}

  lemma AsideRow(s: World, k: nat, row: Row)
    requires s.requests != [] && k < |s.rows| && row.request == s.rows[k].request && row.kind == s.rows[k].kind
    ensures Aside(s, SetRow(s, k, row))
  {}

  lemma AsideGoto(s: World, w: nat, work: Work)
    requires s.requests != [] && w in s.dispatchers && s.dispatchers[w].work != Replaying && !LabelWork(work)
    ensures Aside(s, Goto(s, w, work)) && Aside(s, Leave(s, w))
  {
    hide Aside;
    AsideBy(s, Goto(s, w, work), w);
    AsideBy(s, Leave(s, w), w);
  }

  /** Nothing changes but what was posted, generated or clicked. */
  lemma AsideSame(s: World, t: World)
    requires s.requests != [] && t == s.(comments := t.comments, messages := t.messages, tokens := t.tokens, clicks := t.clicks)
    ensures Aside(s, t)
  {}

  /** The request is updated, then the dispatcher goes on or is done. */
  lemma AsideSetGoto(s: World, w: nat, i: nat, r: Request, work: Work)
    requires i < |s.requests| && SameLabel(s.requests[i], r)
    requires w in s.dispatchers && s.dispatchers[w].work != Replaying && !LabelWork(work)
    ensures Aside(s, Goto(SetRequest(s, i, r), w, work))
    ensures s.dispatchers[w].row < |s.rows| ==> Aside(s, Done(SetRequest(s, i, r), w))
  {
    hide Aside;
    var m := SetRequest(s, i, r);
    AsideSet(s, i, r);
    AsideGoto(m, w, work);
    AsideThen(s, m, Goto(m, w, work));
    var k := s.dispatchers[w].row;
    if k < |s.rows| {
      var row := m.rows[k].(status := Sent, claimedBy := None);
      AsideRow(m, k, row);
      AsideGoto(SetRow(m, k, row), w, work);
      AsideThen(m, SetRow(m, k, row), Done(m, w));
      AsideThen(s, m, Done(m, w));
    }
  }

  lemma AsideCommented(s: World, w: nat, id: nat)
    requires Busy(s, w) && s.dispatchers[w].work != Replaying
    ensures Aside(s, Commented(s, w, id))
  {
    hide Aside;
    var i := RequestAt(s, w);
    var r := s.requests[i];
    AsideSetGoto(s, w, i, r.(commentId := Some(id),
                             delivery := if KindAt(s, w) == ApplyLabel && r.delivery == Undelivered
                                         then LabelApplied else r.delivery), Claimed);
  }

  lemma AsideComment(s: World, w: nat, search: SearchAnswer)
    requires s.requests != []
    ensures OnComment(s, w, search) == s || Aside(s, OnComment(s, w, search))
  {
    hide Aside, Commented;
    if OnComment(s, w, search) != s {
      var i := RequestAt(s, w);
      var r := s.requests[i];
      if r.commentId.Some? {
        AsideCommented(s, w, r.commentId.value);
      } else if !r.commentRequested {
        AsideSetGoto(s, w, i, r.(commentRequested := true), CommentPosting);
      } else {
        match search
        case Found(id) => AsideCommented(s, w, id);
        case NothingFound => AsideGoto(s, w, CommentPosting);
        case SearchError(retryable) => AsideGoto(s, w, Failing(!retryable));
      }
    }
  }

  /** A POST that is not the label's. */
  lemma AsidePost(s: World, m: World, w: nat, work: Work)
    requires s.requests != [] && m == s.(comments := m.comments, messages := m.messages)
    requires w in s.dispatchers && s.dispatchers[w].work != Replaying && !LabelWork(work)
    ensures Aside(s, Goto(m, w, work))
  {
    hide Aside;
    AsideSame(s, m);
    AsideGoto(m, w, work);
    AsideThen(s, m, Goto(m, w, work));
  }

  lemma AsidePosts(s: World, w: nat, posted: PostAnswer)
    requires s.requests != []
    ensures OnPostComment(s, w, posted) == s || Aside(s, OnPostComment(s, w, posted))
    ensures OnPostSlack(s, w, posted) == s || Aside(s, OnPostSlack(s, w, posted))
  {
    hide Aside;
    var t, u := OnPostComment(s, w, posted), OnPostSlack(s, w, posted);
    if t != s { AsidePost(s, s.(comments := t.comments), w, t.dispatchers[w].work); }
    if u != s { AsidePost(s, s.(messages := u.messages), w, u.dispatchers[w].work); }
  }

  lemma AsideFinish(s: World, w: nat)
    requires s.requests != []
    ensures OnFinishComment(s, w) == s || Aside(s, OnFinishComment(s, w))
    ensures OnFinishSlack(s, w) == s || Aside(s, OnFinishSlack(s, w))
  {
    hide Aside, Commented;
    if OnFinishComment(s, w) != s {
      AsideCommented(s, w, s.dispatchers[w].work.id);
    }
    if OnFinishSlack(s, w) != s {
      var i := RequestAt(s, w);
      AsideSetGoto(s, w, i, s.requests[i].(notification := Notified, message := Some(s.dispatchers[w].work.ts)), Claimed);
    }
  }

  lemma AsideFailure(s: World, i: nat, kind: RowKind)
    requires i < |s.requests|
    ensures Aside(s, TerminalFailure(s, i, kind))
  {
    hide Aside;
    var t := TerminalFailure(s, i, kind);
    AsideSame(s, s);
    AsideSet(s, i, t.requests[i]);
    var m := SetRequest(s, i, t.requests[i]);
    assert m == t.(state := s.state);
    AsideState(m, t.state);
    AsideThen(s, m, t);
  }

  lemma AsideState(s: World, state: L.CaseState)
    requires s.requests != [] && (state == s.state || (Awaits(s) && Awaits(s.(state := state))))
    ensures Aside(s, s.(state := state))
  {}

  lemma AsideFail(s: World, w: nat)
    requires s.requests != []
    ensures OnFail(s, w) == s || Aside(s, OnFail(s, w))
  {
    hide Aside, TerminalFailure;
    if OnFail(s, w) != s {
      var k := s.dispatchers[w].row;
      var row := s.rows[k];
      var failed := SetRow(s, k, row.(status := RowStatus.Failed, claimedBy := None));
      var queued := SetRow(s, k, row.(claimedBy := None));
      AsideRow(s, k, row.(status := RowStatus.Failed, claimedBy := None));
      AsideRow(s, k, row.(claimedBy := None));
      AsideGoto(queued, w, Claimed);
      AsideThen(s, queued, Leave(queued, w));
      AsideFailure(failed, row.request, row.kind);
      FailureFrame(failed, row.request, row.kind);
      var t := TerminalFailure(failed, row.request, row.kind);
      AsideThen(s, failed, t);
      AsideAfter(s, t, w);
    }
  }

  lemma AsideAfter(s: World, t: World, w: nat)
    requires Aside(s, t) && w in t.dispatchers && t.dispatchers[w].work != Replaying
    ensures Aside(s, Leave(t, w))
  {
    assert t.requests != [];
    AsideGoto(t, w, Claimed);
    AsideThen(s, t, Leave(t, w));
  }

  lemma AsideRetry(s: World, k: nat)
    requires s.requests != []
    ensures Aside(s, OnRetry(s, k))
  {
    hide Aside;
    var t := OnRetry(s, k);
    AsideSame(s, s);
    if t != s {
      var row := s.rows[k].(status := Pending, attempts := 0, claimedBy := None);
      var queued := SetRow(s, k, row);
      AsideRow(s, k, row);
      if t != queued {
        AsideSet(queued, row.request, t.requests[row.request]);
        AsideThen(s, queued, t);
      }
    }
  }

  lemma AsideClaim(s: World, w: nat, k: nat)
    requires s.requests != []
    ensures Aside(s, OnClaim(s, w, k))
  {
    if ReplayComing(s) {
      var v :| v in s.dispatchers && s.dispatchers[v].work == Replaying;
      assert OnClaim(s, w, k).dispatchers[v] == s.dispatchers[v];
    }
  }

  /** Nothing is undecided any more, so a click or an expiry decides nothing. */
  lemma AsideClick(s: World, click: Click, authorized: bool, lapsed: bool)
    requires Inv(s) && s.requests != [] && Current(s).decision == Approved
    ensures Aside(s, OnClick(s, click, authorized, lapsed))
  {
    NothingUndecided(s);
    OnlyRecords(s, click, authorized, lapsed);
    hide Inv, OnClick, Aside;
    AsideSame(s, OnClick(s, click, authorized, lapsed));
  }

  lemma NothingUndecided(s: World)
    requires Inv(s) && s.requests != [] && Current(s).decision == Approved
    ensures forall i | 0 <= i < |s.requests| :: s.requests[i].decision != Undecided
  {
    hide RowsOk, TokensOk, GateOk, RejectionOk;
  }

  lemma OnlyRecords(s: World, click: Click, authorized: bool, lapsed: bool)
    requires forall i | 0 <= i < |s.requests| :: s.requests[i].decision != Undecided
    ensures OnClick(s, click, authorized, lapsed) in {s, s.(clicks := s.clicks + {click})}
  {
    hide IsCurrent, RequestOf;
  }

  lemma AsideExpire(s: World, i: nat)
    requires Inv(s) && s.requests != [] && Current(s).decision == Approved
    ensures OnExpire(s, i) == s
  {}

  lemma AsideSlack(s: World, w: nat, search: SearchAnswer, token: nat)
    requires Busy(s, w) && s.dispatchers[w].work == Claimed
    ensures BeginSlack(s, w, search, token) == s || Aside(s, BeginSlack(s, w, search, token))
  {
    hide Aside;
    var i := RequestAt(s, w);
    var r := s.requests[i];
    AsideSetGoto(s, w, i, r, Claimed);
    assert SetRequest(s, i, r) == s;
    if search.SearchError? { AsideGoto(s, w, Failing(!search.retryable)); }
    if search.Found? { AsideSetGoto(s, w, i, r.(notification := Notified, message := Some(search.at)), Claimed); }
    var m := s.(tokens := s.tokens + {token});
    var armed := r.(token := Live(token), notification := Sending);
    AsideSame(s, m);
    AsideSetGoto(m, w, i, armed, SlackPosting(token));
    AsideThen(s, m, Goto(SetRequest(m, i, armed), w, SlackPosting(token)));
  }

  lemma AsideRejection(s: World, w: nat, permitted: bool)
    requires Busy(s, w) && s.dispatchers[w].work == Claimed
    ensures Aside(s, BeginRejection(s, w, permitted))
  {
    hide Aside;
    var r := s.requests[RequestAt(s, w)];
    AsideSetGoto(s, w, RequestAt(s, w), r, Claimed);
    assert SetRequest(s, RequestAt(s, w), r) == s;
    AsideGoto(s, w, Failing(true));
    AsideGoto(s, w, Commenting);
  }

  lemma AsideLeave(s: World, w: nat)
    requires s.requests != [] && w in s.dispatchers && s.dispatchers[w].work != Replaying
    ensures Aside(s, Leave(s, w))
  {
    hide Aside;
    AsideBy(s, Leave(s, w), w);
  }

  // ------------------------------------------------------------------ the steps of the label write

  /** Before the bookkeeping is committed nothing can have been lost. */
  lemma NotLostYet(s: World, lost: bool)
    requires Race(s, lost) && Current(s).labelAppliedAt.None?
    ensures !lost && !Owed(s)
  {}

  lemma StampKeeps(s: World, w: nat, lost: bool)
    requires Race(s, lost) && Busy(s, w) && RequestAt(s, w) == |s.requests| - 1 && s.dispatchers[w].work == Claimed
    requires Current(s).labelAppliedAt.None? && !(Current(s).labelRequestedAt.Some? && s.labelOn)
    ensures
      var i := RequestAt(s, w);
      Race(Goto(SetRequest(s, i, s.requests[i].(labelRequestedAt := Some(s.clock))), w, LabelPosting), lost)
  {
    NotLostYet(s, lost);
  }

  lemma AppliedKeeps(s: World, w: nat, lost: bool)
    requires Race(s, lost) && Busy(s, w) && RequestAt(s, w) == |s.requests| - 1
    requires Current(s).labelAppliedAt.None? && Current(s).labelRequestedAt.Some? && LabelFields(Current(s))
    ensures Race(Applied(s, w), lost)
  {
    NotLostYet(s, lost);
    assert Applied(s, w).dispatchers[w].work == Replaying;
  }

  lemma BeginLabelKeeps(s: World, w: nat, permitted: bool, issue: IssueAnswer, lost: bool)
    requires Inv(s) && Once(s) && Race(s, lost) && Busy(s, w) && KindAt(s, w) == ApplyLabel
    requires s.dispatchers[w].work == Claimed
    ensures Race(BeginLabel(s, w, permitted, issue), lost)
  {
    hide Inv, Once, Race, Aside;
    var t := BeginLabel(s, w, permitted, issue);
    var i := RequestAt(s, w);
    AtWork(s, w);
    if t.dispatchers[w].work == LabelPosting {
      StampKeeps(s, w, lost);
    } else if t.dispatchers[w].work == Replaying {
      AppliedKeeps(s, w, lost);
    } else {
      AsideBy(s, t, w);
      AsideKeeps(s, t, lost);
    }
  }

  lemma BeginKeepsRace(s: World, w: nat, permitted: bool, issue: IssueAnswer, search: SearchAnswer, token: nat, lost: bool)
    requires Inv(s) && Once(s) && Race(s, lost)
    ensures Race(OnBegin(s, w, permitted, issue, search, token), lost)
  {
    hide Inv, Once, Race, Aside, BeginLabel, BeginRejection, BeginSlack, Leave;
    var t := OnBegin(s, w, permitted, issue, search, token);
    if t != s {
      if t == Leave(s, w) {
        AsideLeave(s, w);
        AsideKeeps(s, t, lost);
      } else {
        match KindAt(s, w)
        case ApplyLabel => BeginLabelKeeps(s, w, permitted, issue, lost);
        case RejectionComment => AsideRejection(s, w, permitted); AsideKeeps(s, t, lost);
        case SlackRequest => AsideSlack(s, w, search, token); AsideKeeps(s, t, lost);
      }
    }
  }

  lemma PostLabelKeeps(s: World, w: nat, posted: PostAnswer, lost: bool)
    requires Race(s, lost)
    ensures Race(OnPostLabel(s, w, posted), lost)
  {
    var t := OnPostLabel(s, w, posted);
    if t != s {
      assert LabelWork(s.dispatchers[w].work);
      var landed := s.(labelOn := t.labelOn, labelLanded := t.labelLanded);
      assert Race(landed, lost);
      RaceGoto(landed, w, t.dispatchers[w].work, lost);
    }
  }

  lemma RaceGoto(s: World, w: nat, work: Work, lost: bool)
    requires Race(s, lost) && w in s.dispatchers && s.dispatchers[w].work != Replaying && work != Replaying
    requires LabelWork(work) ==> LabelWork(s.dispatchers[w].work)
    ensures Race(Goto(s, w, work), lost)
  {
    var t := Goto(s, w, work);
    assert Owed(t) == Owed(s);
    if ReplayComing(s) {
      var v :| v in s.dispatchers && s.dispatchers[v].work == Replaying;
      assert t.dispatchers[v] == s.dispatchers[v];
    }
    if ReplayComing(t) {
      var v :| v in t.dispatchers && t.dispatchers[v].work == Replaying;
      assert s.dispatchers[v].work == Replaying;
    }
  }

  lemma ApplyKeeps(s: World, w: nat, lost: bool)
    requires Once(s) && Race(s, lost)
    ensures Race(OnApplyCommit(s, w), lost)
  {
    hide Once, Race, Applied;
    if Busy(s, w) && s.dispatchers[w].work == LabelPosted {
      AtWork(s, w);
      LabelWorkIsOurs(s, w, lost);
      AppliedKeeps(s, w, lost);
      assert OnApplyCommit(s, w) == Applied(s, w);
    }
  }

  lemma LabelWorkIsOurs(s: World, w: nat, lost: bool)
    requires Race(s, lost) && Busy(s, w) && LabelWork(s.dispatchers[w].work)
    ensures RequestAt(s, w) == |s.requests| - 1 && Current(s).labelRequestedAt.Some?
  {}

  /** The last process able to replay has none beside it. */
  lemma OneReplay(s: World, v: nat, w: nat)
    requires Inv(s) && Once(s) && v in s.dispatchers && w in s.dispatchers
    requires s.dispatchers[v].work == s.dispatchers[w].work == Replaying
    requires Busy(s, v) && Busy(s, w) && RequestAt(s, v) == RequestAt(s, w)
    ensures v == w
  {
    hide RequestsOk, RemotesOk, RoundsOk, TokensOk, GateOk;
    assert WorkOk(s, s.dispatchers[v]) && WorkOk(s, s.dispatchers[w]);
    if v != w { DifferentSides(s, v, w); }
  }

  lemma ReplayKeeps(s: World, w: nat, lost: bool)
    requires Inv(s) && Once(s) && Race(s, lost)
    ensures Race(OnReplay(s, w), lost)
  {
    hide Inv, Once;
    if Busy(s, w) && s.dispatchers[w].work == Replaying {
      AtWork(s, w);
      LabelWorkIsOurs(s, w, lost);
      assert ReplayComing(s) && !lost;
      hide Goto;
      if Reported(s) && Current(s).labelConfirmedAt.None? {
        assert Confirmable(s, None);
        ReplayConfirms(s, w);
      } else {
        assert !Confirmable(s, None) || !Reported(s);
        NothingOwed(s, w);
      }
    }
  }

  lemma ReplayConfirms(s: World, w: nat)
    requires RoundOk(s) && OursOk(s) && w in s.dispatchers && Confirmable(s, None)
    ensures Race(Goto(Confirm(s, None), w, Commenting), false)
  {
    hide Goto, Race;
    var m := Confirm(s, None);
    assert !Owed(m) && RoundOk(m) && OursOk(m);
    NothingOwed(m, w);
  }

  lemma NothingOwed(s: World, w: nat)
    requires RoundOk(s) && OursOk(s) && !Owed(s) && w in s.dispatchers
    ensures Race(Goto(s, w, Commenting), false)
  {
    var t := Goto(s, w, Commenting);
    assert Current(t) == Current(s);
  }

  lemma WebhookKeeps(s: World, shows: Option<bool>, ours: Option<nat>, lost: bool)
    requires Once(s) && Race(s, lost) && (ours == Some(|s.requests| - 1) ==> shows != Some(false))
    ensures Race(OnWebhook(s, shows, ours), lost && (shows == Some(false) || Untold(s, ours)))
  {
    hide Once;
    CurrentOk(s);
    var t := OnWebhook(s, shows, ours);
    if t != s {
      var h := Webhook(s.clock, shows, ours);
      if Confirmable(s, shows) {
        assert !Owed(t);
      } else {
        assert Current(t) == Current(s) && t.dispatchers == s.dispatchers;
        if Current(s).labelAppliedAt.Some? && shows != Some(false) { assert !Owed(t); }
        else { assert !Replayable(Current(s), h); assert Owed(t) == Owed(s); }
      }
    }
  }

  lemma CurrentOk(s: World)
    requires Once(s) && s.requests != []
    ensures RequestOk(s, |s.requests| - 1)
  {}

  lemma CrashKeeps(s: World, w: nat, lost: bool)
    requires Inv(s) && Once(s) && Race(s, lost)
    ensures
      var hit := w in s.dispatchers && s.dispatchers[w].work == Replaying && Owed(s);
      Race(Leave(s, w), lost || hit)
  {
    hide Inv, Once;
    var t := Leave(s, w);
    assert Owed(t) == Owed(s);
    if w in s.dispatchers && s.dispatchers[w].work == Replaying {
      AtWork(s, w);
      LabelWorkIsOurs(s, w, lost);
      forall v <- t.dispatchers ensures t.dispatchers[v].work != Replaying {
        if t.dispatchers[v].work == Replaying {
          AtWork(s, v);
          LabelWorkIsOurs(s, v, lost);
          OneReplay(s, v, w);
        }
      }
    } else if w in s.dispatchers {
      AsideLeave(s, w);
      AsideKeeps(s, t, lost);
    } else {
      assert t.dispatchers == s.dispatchers;
    }
  }

  // ------------------------------------------------------------------ over every steady run

  /** Events outside the label write. */
  predicate OffTopic(e: Event) {
    || e.Tick? || e.LabelChanges? || e.SlackClick? || e.ExpireRequest? || e.RetryOutbox? || e.Claim? || e.Comment?
    || e.PostComment? || e.FinishComment? || e.PostSlack? || e.FinishSlack? || e.Fail?
  }

  lemma NextAside(s: World, e: Event)
    requires Inv(s) && s.requests != [] && Current(s).decision == Approved && OffTopic(e) && e != LabelChanges(false)
    ensures Next(s, e) == s || Aside(s, Next(s, e))
  {
    hide Inv, Aside, OnClick, OnExpire, OnComment, OnFail, OnPostComment, OnPostSlack, OnFinishComment, OnFinishSlack,
      OnRetry, OnClaim;
    match e
    case Tick => AsideTick(s);
    case LabelChanges(on) => AsideTick(s);
    case SlackClick(click, authorized, lapsed) => AsideClick(s, click, authorized, lapsed);
    case ExpireRequest(i) => AsideExpire(s, i);
    case RetryOutbox(k) => AsideRetry(s, k);
    case Claim(w, k) => AsideClaim(s, w, k);
    case Comment(w, search) => AsideComment(s, w, search);
    case PostComment(w, posted) => AsidePosts(s, w, posted);
    case FinishComment(w) => AsideFinish(s, w);
    case PostSlack(w, posted) => AsidePosts(s, w, posted);
    case FinishSlack(w) => AsideFinish(s, w);
    case Fail(w) => AsideFail(s, w);
  }

  lemma NextKeepsRace(s: World, e: Event, lost: bool)
    requires Inv(s) && Once(s) && Race(s, lost) && Steady(s, e)
    ensures Race(Next(s, e), LostNext(s, e, lost))
  {
    assert s.requests != [] && Current(s).decision == Approved;
    if OffTopic(e) {
      hide Inv, Once, Race, Aside, Next, Steady, Owed;
      assert e != LabelChanges(false) by { SteadyKeepsLabel(s, e); }
      NextAside(s, e);
      if Next(s, e) != s { AsideKeeps(s, Next(s, e), lost); }
    } else {
      hide Inv, Once, Race, OnBegin, OnReplay, OnWebhook, OnPostLabel, OnApplyCommit, Leave, Owed, Leased, SearchesExactly;
      match e
      case LabelWebhook(shows, ours) => WebhookKeeps(s, shows, ours, lost);
      case Begin(w, permitted, issue, search, token) => BeginKeepsRace(s, w, permitted, issue, search, token, lost);
      case PostLabel(w, posted) => PostLabelKeeps(s, w, posted, lost);
      case ApplyCommit(w) => ApplyKeeps(s, w, lost);
      case Replay(w) => ReplayKeeps(s, w, lost);
      case Crash(w) => CrashKeeps(s, w, lost);
    }
  }

  lemma SteadyKeepsLabel(s: World, e: Event)
    requires Steady(s, e)
    ensures e != LabelChanges(false)
  {}

  lemma AsideTick(s: World)
    requires s.requests != []
    ensures Aside(s, s.(clock := s.clock + 1)) && Aside(s, s.(labelOn := true))
  {}

  lemma {:induction false} RunKeepsRace(s: World, es: seq<Event>)
    requires JustApproved(s) && SteadyRun(s, es)
    ensures Inv(Run(s, es)) && Once(Run(s, es)) && Race(Run(s, es), Lost(s, es))
  {
    if es == [] {
      RaceStarts(s);
    } else {
      hide JustApproved, Inv, Once, Race, Next, Owed, Steady, LostNext;
      var n := |es| - 1;
      RunKeepsRace(s, es[..n]);
      var before := Run(s, es[..n]);
      assert Steady(before, es[n]);
      ApprovalSafety.NextKeeps(before, es[n]);
      NextOnce(before, es[n]);
      NextKeepsRace(before, es[n], Lost(s, es[..n]));
    }
  }

  /** From the approval on, while the round stays current and the case waits: once our label is on
      record, GitHub's report of it is processed and no replay is in flight, the case is approved
      for remediation exactly if no crash lost the replay. Every interleaving, any number of
      crashes, retries and dispatchers. */
  lemma LabelsConverge(s: World, es: seq<Event>)
    requires JustApproved(s) && SteadyRun(s, es)
    requires
      var t := Run(s, es);
      && t.requests != [] && Current(t).labelAppliedAt.Some?
      && (exists h <- t.webhooks :: h.ours == Some(|t.requests| - 1)) && !ReplayComing(t)
    ensures Run(s, es).state == L.RemediationApproved <==> !Lost(s, es)
  {
    hide Next, Inv, Once, JustApproved, Lost;
    RunKeepsRace(s, es);
    var t := Run(s, es);
    var h :| h in t.webhooks && h.ours == Some(|t.requests| - 1);
    assert Replayable(Current(t), h);
  }

  // ------------------------------------------------------------------ the wedge is permanent

  /** Labelled but unconfirmed, and no label write in flight that could still replay. */
  ghost predicate Wedged(s: World) {
    && Inv(s) && Once(s) && s.requests != [] && Current(s).labelAppliedAt.Some? && Current(s).labelConfirmedAt.None?
    && Awaits(s) && (forall w <- s.dispatchers :: !LabelWork(s.dispatchers[w].work))
    && IsCurrent(s, |s.requests| - 1)
  }

  lemma NoLabelBegins(s: World, w: nat, permitted: bool, issue: IssueAnswer)
    requires Wedged(s) && Busy(s, w) && KindAt(s, w) == ApplyLabel && s.dispatchers[w].work == Claimed
    ensures Aside(s, BeginLabel(s, w, permitted, issue))
  {
    hide Inv, Once, Aside;
    AsideGoto(s, w, BeginLabel(s, w, permitted, issue).dispatchers[w].work);
  }

  lemma LabelWorkNeedsRequest(s: World, w: nat, permitted: bool, issue: IssueAnswer, search: SearchAnswer, token: nat)
    requires Wedged(s)
    ensures OnBegin(s, w, permitted, issue, search, token) == s ||
            Aside(s, OnBegin(s, w, permitted, issue, search, token))
  {
    hide Inv, Once, Aside, BeginLabel, BeginRejection, BeginSlack, Leave;
    var t := OnBegin(s, w, permitted, issue, search, token);
    if t != s {
      if t == Leave(s, w) {
        AsideLeave(s, w);
      } else {
        match KindAt(s, w)
        case ApplyLabel => NoLabelBegins(s, w, permitted, issue);
        case RejectionComment => AsideRejection(s, w, permitted);
        case SlackRequest => AsideSlack(s, w, search, token);
      }
    }
  }

  lemma NextStaysWedged(s: World, e: Event)
    requires Wedged(s) && Steady(s, e) && (e.LabelWebhook? ==> e.shows == Some(false))
    ensures Wedged(Next(s, e))
  {
    var t := Next(s, e);
    assert Inv(t) && Once(t) by {
      hide Next, Inv, Once;
      ApprovalSafety.NextKeeps(s, e);
      NextOnce(s, e);
    }
    WedgedApproved(s);
    if OffTopic(e) {
      hide Inv, Once, Aside, Next;
      NextAside(s, e);
      AsideWedged(s, t);
    } else {
      hide Inv, Once, Aside, OnBegin, OnReplay, OnWebhook, OnPostLabel, OnApplyCommit, Leave, Leased, SearchesExactly;
      match e
      case LabelWebhook(shows, ours) => DeniedWebhook(s, shows, ours);
      case Begin(w, permitted, issue, search, token) =>
        LabelWorkNeedsRequest(s, w, permitted, issue, search, token);
        AsideWedged(s, t);
      case PostLabel(w, posted) => NoLabelWork(s, w, posted);
      case ApplyCommit(w) => NoLabelWork(s, w, Posted);
      case Replay(w) => NoLabelWork(s, w, Posted);
      case Crash(w) => if w in s.dispatchers { AsideLeave(s, w); AsideWedged(s, t); } else { LeaveNobody(s, w); }
    }
  }

  lemma LeaveNobody(s: World, w: nat)
    requires w !in s.dispatchers
    ensures Leave(s, w) == s
  {
    assert s.dispatchers - {w} == s.dispatchers;
  }

  lemma WedgedApproved(s: World)
    requires Wedged(s)
    ensures Current(s).decision == Approved
  {
    CurrentOk(s);
  }

  lemma NoLabelWork(s: World, w: nat, posted: PostAnswer)
    requires forall v <- s.dispatchers :: !LabelWork(s.dispatchers[v].work)
    ensures OnPostLabel(s, w, posted) == s && OnApplyCommit(s, w) == s && OnReplay(s, w) == s
  {}

  lemma DeniedWebhook(s: World, shows: Option<bool>, ours: Option<nat>)
    requires Wedged(s) && shows == Some(false) && Inv(OnWebhook(s, shows, ours)) && Once(OnWebhook(s, shows, ours))
    ensures Wedged(OnWebhook(s, shows, ours))
  {
    hide Inv, Once;
  }

  lemma AsideWedged(s: World, t: World)
    requires Wedged(s) && (t == s || Aside(s, t)) && Inv(t) && Once(t)
    ensures Wedged(t)
    ensures t == s || Aside(s, t)
  {
    hide Inv, Once;
  }

  /** Nothing but a delivery that reports the label again gets a wedged case out of waiting. */
  lemma {:induction false} WedgeIsPermanent(s: World, es: seq<Event>)
    requires Wedged(s) && SteadyRun(s, es)
    requires forall e <- es :: e.LabelWebhook? ==> e.shows == Some(false)
    ensures Wedged(Run(s, es)) && Run(s, es).state != L.RemediationApproved
  {
    if es != [] {
      hide Wedged, Next;
      var n := |es| - 1;
      WedgeIsPermanent(s, es[..n]);
      assert Steady(Run(s, es[..n]), es[n]) && es[n] in es;
      NextStaysWedged(Run(s, es[..n]), es[n]);
      WedgedWaits(Run(s, es));
    } else {
      WedgedWaits(s);
    }
  }

  lemma WedgedWaits(s: World)
    requires Wedged(s)
    ensures s.state != L.RemediationApproved
  {}
}

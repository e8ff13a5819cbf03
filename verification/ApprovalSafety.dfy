/** What every run of the approval protocol keeps, with any number of dispatchers, lapsed leases
    and crashes. */
module ApprovalSafety {
  import opened Wrappers
  import opened Approvals
  import L = Lifecycle

  // ------------------------------------------------------------------ the invariant

  /** Only the newest round can be undecided, and no attempt has two rounds. */
  ghost predicate RoundsOk(s: World) {
    && (forall i | 0 <= i < |s.requests| && s.requests[i].decision == Undecided :: i == |s.requests| - 1)
    && (forall i, j | 0 <= i < j < |s.requests| :: s.requests[i].attempt != s.requests[j].attempt)
  }

  /** No two requests hold a hash of the same token. */
  ghost predicate TokensOk(s: World) {
    && (forall i | 0 <= i < |s.requests| && s.requests[i].token != NoToken :: s.requests[i].token.value in s.tokens)
    && (forall i, j | 0 <= i < j < |s.requests| && s.requests[i].token != NoToken && s.requests[j].token != NoToken ::
          s.requests[i].token.value != s.requests[j].token.value)
  }

  predicate HasRow(s: World, i: nat, kind: RowKind) { exists row <- s.rows :: row.request == i && row.kind == kind }

  /** One row per request and kind: a Slack row for every request, a label row exactly for an approved
      one, a rejection comment exactly for a rejected one. */
  ghost predicate RowsOk(s: World) {
    && (forall k | 0 <= k < |s.rows| :: s.rows[k].request < |s.requests|)
    && (forall k | 0 <= k < |s.rows| && s.rows[k].kind == ApplyLabel :: s.requests[s.rows[k].request].decision == Approved)
    && (forall k | 0 <= k < |s.rows| && s.rows[k].kind == RejectionComment ::
          s.requests[s.rows[k].request].decision == Rejected)
    && (forall k, l | 0 <= k < l < |s.rows| :: s.rows[k].request != s.rows[l].request || s.rows[k].kind != s.rows[l].kind)
    && (forall i | 0 <= i < |s.requests| && s.requests[i].decision == Approved :: HasRow(s, i, ApplyLabel))
    && (forall i | 0 <= i < |s.requests| && s.requests[i].decision == Rejected :: HasRow(s, i, RejectionComment))
    && (forall i | 0 <= i < |s.requests| :: HasRow(s, i, SlackRequest))
  }

  /** Approved, and our own label write and its signed confirmation are both on record. */
  predicate Backed(r: Request) { r.decision == Approved && r.labelAppliedAt.Some? && r.labelConfirmedAt.Some? }

  ghost predicate GateOk(s: World) { L.InRemediation(s.state) ==> exists r <- s.requests :: Backed(r) }

  /** The case is rejected exactly if one of its rounds was, and then that is the last one. */
  ghost predicate RejectionOk(s: World) {
    && (forall i | 0 <= i < |s.requests| && s.requests[i].decision == Rejected ::
          i == |s.requests| - 1 && s.state == L.RemediationRejected)
    && (s.state == L.RemediationRejected ==> s.requests != [] && s.requests[|s.requests| - 1].decision == Rejected)
  }

  lemma RejectionIsFinal(to: L.CaseState, flagged: bool)
    ensures !L.Allowed(L.RemediationRejected, to, flagged)
  {}

  ghost predicate Inv(s: World) { RoundsOk(s) && TokensOk(s) && RowsOk(s) && GateOk(s) && RejectionOk(s) }

  // ------------------------------------------------------------------ steps that decide nothing

  predicate SameRequest(a: Request, b: Request) {
    && a.attempt == b.attempt && a.decision == b.decision && a.token == b.token
    && (a.labelAppliedAt.Some? ==> b.labelAppliedAt.Some?)
    && (a.labelConfirmedAt.Some? ==> b.labelConfirmedAt.Some?)
  }

  /** Requests keep their decision, rows their identity, and the remediation phase is entered
      only on a backed request. */
  ghost predicate Quiet(s: World, t: World) {
    && t.tokens == s.tokens
    && |t.requests| == |s.requests| && |t.rows| == |s.rows|
    && (forall i | 0 <= i < |s.requests| :: SameRequest(s.requests[i], t.requests[i]))
    && (forall k | 0 <= k < |s.rows| :: t.rows[k].request == s.rows[k].request && t.rows[k].kind == s.rows[k].kind)
    && (L.InRemediation(t.state) ==> L.InRemediation(s.state) || exists r <- t.requests :: Backed(r))
    && (t.state == L.RemediationRejected <==> s.state == L.RemediationRejected)
  }

  lemma RowStays(s: World, t: World, i: nat, kind: RowKind)
    requires HasRow(s, i, kind) && |s.rows| <= |t.rows|
    requires forall k | 0 <= k < |s.rows| :: t.rows[k].request == s.rows[k].request && t.rows[k].kind == s.rows[k].kind
    ensures HasRow(t, i, kind)
  {
    var k :| 0 <= k < |s.rows| && s.rows[k].request == i && s.rows[k].kind == kind;
    assert t.rows[k] in t.rows;
  }

  /** Rows keep their identity and requests their decisions. */
  lemma RowsStay(s: World, t: World)
    requires RowsOk(s) && |t.requests| == |s.requests| && |t.rows| == |s.rows|
    requires forall i | 0 <= i < |s.requests| :: t.requests[i].decision == s.requests[i].decision
    requires forall k | 0 <= k < |s.rows| :: t.rows[k].request == s.rows[k].request && t.rows[k].kind == s.rows[k].kind
    ensures RowsOk(t)
  {
    hide HasRow;
    forall i | 0 <= i < |t.requests|
      ensures t.requests[i].decision == Approved ==> HasRow(t, i, ApplyLabel)
      ensures t.requests[i].decision == Rejected ==> HasRow(t, i, RejectionComment)
      ensures HasRow(t, i, SlackRequest)
    {
      assert t.requests[i].decision == s.requests[i].decision;
      RowStays(s, t, i, SlackRequest);
      if t.requests[i].decision == Approved { RowStays(s, t, i, ApplyLabel); }
      if t.requests[i].decision == Rejected { RowStays(s, t, i, RejectionComment); }
    }
    forall k | 0 <= k < |t.rows|
      ensures t.rows[k].request < |t.requests|
      ensures t.requests[t.rows[k].request].decision == s.requests[s.rows[k].request].decision
    {
      assert t.rows[k].request == s.rows[k].request;
    }
  }

  lemma QuietKeeps(s: World, t: World)
    requires Inv(s) && Quiet(s, t)
    ensures Inv(t)
  {
    hide L.InRemediation, RowsOk;
    forall i | 0 <= i < |s.requests| ensures t.requests[i].decision == s.requests[i].decision {
      assert SameRequest(s.requests[i], t.requests[i]);
    }
    RowsStay(s, t);
    forall i, j | 0 <= i < j < |t.requests|
      ensures t.requests[i].attempt != t.requests[j].attempt
      ensures t.requests[i].token != NoToken && t.requests[j].token != NoToken ==>
                t.requests[i].token.value != t.requests[j].token.value
    {
      assert SameRequest(s.requests[i], t.requests[i]) && SameRequest(s.requests[j], t.requests[j]);
    }
    if L.InRemediation(s.state) {
      var i :| 0 <= i < |s.requests| && Backed(s.requests[i]);
      assert SameRequest(s.requests[i], t.requests[i]) && t.requests[i] in t.requests;
    }
  }

  lemma QuietThen(s: World, m: World, t: World)
    requires Quiet(s, m) && Quiet(m, t)
    ensures Quiet(s, t)
  {
    hide L.InRemediation;
    forall i | 0 <= i < |s.requests| ensures SameRequest(s.requests[i], t.requests[i]) {
      assert SameRequest(s.requests[i], m.requests[i]) && SameRequest(m.requests[i], t.requests[i]);
    }
    if exists r <- m.requests :: Backed(r) {
      var i :| 0 <= i < |m.requests| && Backed(m.requests[i]);
      assert SameRequest(m.requests[i], t.requests[i]) && t.requests[i] in t.requests;
    }
  }

  lemma QuietUpdate(s: World, i: nat, r: Request)
    requires i < |s.requests| && SameRequest(s.requests[i], r)
    ensures Quiet(s, SetRequest(s, i, r))
  {
    hide L.InRemediation;
  }

  lemma QuietGoto(s: World, w: nat, work: Work)
    requires w in s.dispatchers
    ensures Quiet(s, Goto(s, w, work)) && Quiet(s, Leave(s, w)) && Quiet(s, s)
  {
    hide L.InRemediation;
  }

  lemma QuietDone(s: World, w: nat)
    requires w in s.dispatchers && s.dispatchers[w].row < |s.rows|
    ensures Quiet(s, Done(s, w))
  {
    hide L.InRemediation;
  }

  lemma QuietCommented(s: World, w: nat, id: nat)
    requires Busy(s, w)
    ensures Quiet(s, Commented(s, w, id))
  {
    hide Quiet;
    var i := RequestAt(s, w);
    var r := s.requests[i];
    var commented := r.(commentId := Some(id),
                        delivery := if KindAt(s, w) == ApplyLabel && r.delivery == Undelivered
                                    then LabelApplied else r.delivery);
    QuietUpdate(s, i, commented);
    QuietDone(SetRequest(s, i, commented), w);
    QuietThen(s, SetRequest(s, i, commented), Commented(s, w, id));
  }

  lemma QuietConfirm(s: World, shows: Option<bool>)
    ensures Quiet(s, Confirm(s, shows))
    ensures Confirm(s, shows).dispatchers == s.dispatchers
  {
    hide L.InRemediation;
    if Confirmable(s, shows) {
      var t := Confirm(s, shows);
      assert Backed(t.requests[|s.requests| - 1]) && t.requests[|s.requests| - 1] in t.requests;
    }
  }

  lemma QuietWebhook(s: World, shows: Option<bool>, ours: Option<nat>)
    ensures Quiet(s, OnWebhook(s, shows, ours))
  {
    hide L.InRemediation, Confirm;
    QuietConfirm(s, shows);
  }

  lemma QuietReplay(s: World, w: nat)
    ensures Quiet(s, OnReplay(s, w))
  {
    hide L.InRemediation, Confirm;
    QuietConfirm(s, None);
  }

  lemma QuietMoves(s: World, to: L.CaseState, flagged: bool)
    ensures Quiet(s, OnCaseMoves(s, to, flagged))
  {
    hide L.Allowed;
    if L.Allowed(s.state, to, flagged) && !L.InRemediation(s.state) && L.InRemediation(to) {
      L.RemediationDoor(s.state, to, flagged);
    }
    RejectionIsFinal(to, flagged);
  }

  lemma QuietBeginLabel(s: World, w: nat, permitted: bool, issue: IssueAnswer)
    requires Busy(s, w)
    ensures Quiet(s, BeginLabel(s, w, permitted, issue))
  {
    hide L.InRemediation;
  }

  lemma QuietBegin(s: World, w: nat, permitted: bool, issue: IssueAnswer, search: SearchAnswer, token: nat)
    requires !(Busy(s, w) && KindAt(s, w) == SlackRequest)
    ensures Quiet(s, OnBegin(s, w, permitted, issue, search, token))
  {
    hide L.InRemediation, BeginLabel, BeginRejection, Quiet;
    QuietSame(s, s);
    if w in s.dispatchers { QuietGoto(s, w, Claimed); }
    if Busy(s, w) { QuietBeginLabel(s, w, permitted, issue); QuietBeginRejection(s, w, permitted); }
  }

  lemma QuietBeginRejection(s: World, w: nat, permitted: bool)
    requires Busy(s, w)
    ensures Quiet(s, BeginRejection(s, w, permitted))
  {
    hide Quiet, Goto;
    QuietDone(s, w);
    QuietGoto(s, w, Failing(true));
    QuietGoto(s, w, Commenting);
  }

  lemma QuietComment(s: World, w: nat, search: SearchAnswer)
    ensures Quiet(s, OnComment(s, w, search))
  {
    hide Quiet, Commented;
    if Busy(s, w) {
      var i := RequestAt(s, w);
      var r := s.requests[i];
      if r.commentId.Some? {
        QuietCommented(s, w, r.commentId.value);
      } else if search.Found? {
        QuietCommented(s, w, search.at);
      }
      QuietGoto(s, w, CommentPosting);
      QuietUpdate(s, i, r.(commentRequested := true));
      QuietGoto(SetRequest(s, i, r.(commentRequested := true)), w, CommentPosting);
      QuietThen(s, SetRequest(s, i, r.(commentRequested := true)),
                Goto(SetRequest(s, i, r.(commentRequested := true)), w, CommentPosting));
      if search.SearchError? { QuietGoto(s, w, Failing(!search.retryable)); }
    } else {
      QuietSame(s, s);
    }
  }

  lemma QuietFail(s: World, w: nat)
    ensures Quiet(s, OnFail(s, w))
  {
    if Busy(s, w) && s.dispatchers[w].work.Failing? {
      var k := s.dispatchers[w].row;
      var row := s.rows[k];
      var failed := SetRow(s, k, row.(status := RowStatus.Failed, claimedBy := None));
      var queued := SetRow(s, k, row.(claimedBy := None));
      QuietSame(s, failed);
      QuietSame(s, Leave(queued, w));
      QuietFailure(failed, row.request, row.kind);
      var t := TerminalFailure(failed, row.request, row.kind);
      QuietSame(t, Leave(t, w));
      hide Quiet, TerminalFailure;
      QuietThen(s, failed, t);
      QuietThen(s, t, Leave(t, w));
    } else {
      QuietSame(s, s);
    }
  }

  lemma QuietFailure(s: World, i: nat, kind: RowKind)
    requires i < |s.requests|
    ensures Quiet(s, TerminalFailure(s, i, kind))
  {}

  /** Nothing changes but work, statuses and the remotes. */
  lemma QuietSame(s: World, t: World)
    requires t.requests == s.requests && t.tokens == s.tokens && |t.rows| == |s.rows| && t.state == s.state
    requires forall k | 0 <= k < |s.rows| :: t.rows[k].request == s.rows[k].request && t.rows[k].kind == s.rows[k].kind
    ensures Quiet(s, t)
  {
    hide L.InRemediation;
  }

  lemma QuietRetry(s: World, k: nat)
    ensures Quiet(s, OnRetry(s, k))
  {
    hide L.InRemediation;
  }

  lemma QuietPosts(s: World, w: nat, posted: PostAnswer)
    ensures Quiet(s, OnPostSlack(s, w, posted))
    ensures Quiet(s, OnPostComment(s, w, posted))
    ensures Quiet(s, OnPostLabel(s, w, posted))
  {
    hide Quiet;
    QuietSame(s, OnPostSlack(s, w, posted));
    QuietSame(s, OnPostComment(s, w, posted));
    QuietSame(s, OnPostLabel(s, w, posted));
  }

  lemma QuietFinishSlack(s: World, w: nat)
    ensures Quiet(s, OnFinishSlack(s, w))
  {
    hide Quiet;
    QuietSame(s, s);
    if Busy(s, w) && s.dispatchers[w].work.SlackPosted? {
      var i := RequestAt(s, w);
      var r := s.requests[i].(notification := Notified, message := Some(s.dispatchers[w].work.ts));
      QuietUpdate(s, i, r);
      QuietDone(SetRequest(s, i, r), w);
      QuietThen(s, SetRequest(s, i, r), Done(SetRequest(s, i, r), w));
    }
  }

  predicate DecidesNothing(e: Event) {
    !e.NewRound? && !e.SlackClick? && !e.ExpireRequest? && !e.Begin?
  }

  lemma NextIsQuiet(s: World, e: Event)
    requires DecidesNothing(e)
    ensures Quiet(s, Next(s, e))
  {
    hide Quiet, OnReplay, OnWebhook, OnCaseMoves, OnComment, OnFail, OnPostSlack, OnPostComment, OnPostLabel, OnRetry,
      OnFinishSlack, Commented, Applied, OnClaim, L.InRemediation, SetRequest, Leave;
    match e
    case CaseMoves(to, flagged) => QuietMoves(s, to, flagged);
    case LabelWebhook(shows, ours) => QuietWebhook(s, shows, ours);
    case Replay(w) => QuietReplay(s, w);
    case Comment(w, search) => QuietComment(s, w, search);
    case Fail(w) => QuietFail(s, w);
    case RetryOutbox(k) => QuietRetry(s, k);
    case PostLabel(w, posted) => QuietPosts(s, w, posted);
    case PostComment(w, posted) => QuietPosts(s, w, posted);
    case PostSlack(w, posted) => QuietPosts(s, w, posted);
    case FinishSlack(w) => QuietFinishSlack(s, w);
    case FinishComment(w) =>
      QuietSame(s, s);
      if Busy(s, w) && s.dispatchers[w].work.CommentPosted? { QuietCommented(s, w, s.dispatchers[w].work.id); }
    case ApplyCommit(w) => QuietApply(s, w);
    case Claim(w, k) => QuietClaim(s, w, k);
    case Crash(w) => QuietLeave(s, w);
    case Tick => QuietSame(s, s.(clock := s.clock + 1));
    case NewAttempt(attempt) => QuietSame(s, s.(currentAttempt := attempt));
    case LabelChanges(on) => QuietSame(s, s.(labelOn := on));
  }

  lemma QuietLeave(s: World, w: nat)
    ensures Quiet(s, Leave(s, w))
  {
    hide L.InRemediation;
  }

  lemma QuietClaim(s: World, w: nat, k: nat)
    ensures Quiet(s, OnClaim(s, w, k))
  {
    hide L.InRemediation;
  }

  lemma QuietApply(s: World, w: nat)
    ensures Quiet(s, OnApplyCommit(s, w))
  {
    hide L.InRemediation;
  }

  // ------------------------------------------------------------------ the steps that decide

  /** A request takes a token that no request ever held. */
  lemma NewTokenKeeps(s: World, i: nat, r: Request, token: nat)
    requires Inv(s) && i < |s.requests| && token !in s.tokens
    requires SameRequest(s.requests[i], r.(token := s.requests[i].token)) && r.token == Live(token)
    ensures Inv(SetRequest(s.(tokens := s.tokens + {token}), i, r))
  {
    hide L.InRemediation, RowsOk;
    var t := SetRequest(s.(tokens := s.tokens + {token}), i, r);
    RowsStay(s, t);
    if L.InRemediation(s.state) {
      var k :| 0 <= k < |s.requests| && Backed(s.requests[k]);
      assert Backed(t.requests[k]) && t.requests[k] in t.requests;
    }
  }

  lemma SlackKeeps(s: World, w: nat, search: SearchAnswer, token: nat)
    requires Inv(s) && Busy(s, w)
    ensures Inv(BeginSlack(s, w, search, token))
  {
    hide Inv, Quiet;
    var t := BeginSlack(s, w, search, token);
    var i := RequestAt(s, w);
    var r := s.requests[i];
    QuietDone(s, w);
    if search.Found? {
      var found := r.(notification := Notified, message := Some(search.at));
      QuietUpdate(s, i, found);
      QuietDone(SetRequest(s, i, found), w);
      QuietThen(s, SetRequest(s, i, found), Done(SetRequest(s, i, found), w));
    }
    if token !in s.tokens {
      var armed := SetRequest(s.(tokens := s.tokens + {token}), i, r.(token := Live(token), notification := Sending));
      NewTokenKeeps(s, i, r.(token := Live(token), notification := Sending), token);
      QuietGoto(armed, w, SlackPosting(token));
      QuietKeeps(armed, Goto(armed, w, SlackPosting(token)));
    }
    if search.SearchError? { QuietGoto(s, w, Failing(!search.retryable)); }
    if Quiet(s, t) { QuietKeeps(s, t); }
  }

  lemma BeginKeeps(s: World, w: nat, permitted: bool, issue: IssueAnswer, search: SearchAnswer, token: nat)
    requires Inv(s)
    ensures Inv(OnBegin(s, w, permitted, issue, search, token))
  {
    hide Inv, BeginSlack, BeginLabel, BeginRejection;
    if Busy(s, w) && KindAt(s, w) == SlackRequest {
      SlackKeeps(s, w, search, token);
      if OnBegin(s, w, permitted, issue, search, token) == Leave(s, w) { QuietKeeps(s, Leave(s, w)); }
    } else {
      QuietBegin(s, w, permitted, issue, search, token);
      QuietKeeps(s, OnBegin(s, w, permitted, issue, search, token));
    }
  }

  lemma NewRoundKeeps(s: World, attempt: nat)
    requires Inv(s)
    ensures Inv(OnNewRound(s, attempt))
  {
    hide L.Allowed, L.InRemediation, RowsOk, TokensOk, RoundsOk;
    RejectionIsFinal(L.Triaged, false);
    OutsideRemediation();
    var t := OnNewRound(s, attempt);
    if |t.requests| > |s.requests| {
      forall i | 0 <= i < |s.requests| ensures t.requests[i] == Supersede(s.requests[i]) {}
      RoundsAfterRound(s, t, attempt);
      RowsAfterRound(s, t);
    } else if t != s {
      assert Quiet(s, t);
      QuietKeeps(s, t);
    }
  }

  lemma RoundsAfterRound(s: World, t: World, attempt: nat)
    requires RoundsOk(s) && TokensOk(s) && |t.requests| == |s.requests| + 1 && t.requests[|s.requests|] == FreshRequest(attempt)
    requires forall r <- s.requests :: r.attempt != attempt
    requires (forall i | 0 <= i < |s.requests| :: t.requests[i] == Supersede(s.requests[i])) && t.tokens == s.tokens
    ensures RoundsOk(t) && TokensOk(t)
  {
    forall i | 0 <= i < |s.requests| ensures t.requests[i].attempt == s.requests[i].attempt != attempt { assert s.requests[i] in s.requests; }
  }

  lemma RowsAfterRound(s: World, t: World)
    requires RowsOk(s) && |t.requests| == |s.requests| + 1 && t.requests[|s.requests|].decision == Undecided
    requires forall i | 0 <= i < |s.requests| :: t.requests[i] == Supersede(s.requests[i])
    requires t.rows == s.rows + [Row(|s.requests|, SlackRequest, Pending, 0, None)]
    ensures RowsOk(t)
  {
    hide HasRow;
    forall k | 0 <= k < |s.rows| ensures t.rows[k] == s.rows[k] {}
    NewRow(t, |s.requests|);
    forall i | 0 <= i < |s.requests|
      ensures t.requests[i].decision == Approved ==> HasRow(t, i, ApplyLabel)
      ensures t.requests[i].decision == Rejected ==> HasRow(t, i, RejectionComment)
      ensures HasRow(t, i, SlackRequest)
    {
      RowStays(s, t, i, SlackRequest);
      if t.requests[i].decision == Approved { RowStays(s, t, i, ApplyLabel); }
      if t.requests[i].decision == Rejected { RowStays(s, t, i, RejectionComment); }
    }
  }

  /** A decision settles request `i`, the newest, and adds at most the row that goes with it. */
  ghost predicate Decides(s: World, t: World, i: nat) {
    && i < |s.requests| && s.requests[i].decision == Undecided
    && |t.requests| == |s.requests| && t.requests == s.requests[i := t.requests[i]]
    && t.requests[i].decision != Undecided && t.requests[i].attempt == s.requests[i].attempt
    && (t.requests[i].token == s.requests[i].token ||
        (s.requests[i].token.Live? && t.requests[i].token == Retired(s.requests[i].token.value)))
    && t.tokens == s.tokens
    && L.InRemediation(t.state) == L.InRemediation(s.state)
    && (t.state == L.RemediationRejected <==> t.requests[i].decision == Rejected || s.state == L.RemediationRejected)
    && t.rows == s.rows + (match t.requests[i].decision
                           case Approved => [Row(i, ApplyLabel, Pending, 0, None)]
                           case Rejected => [Row(i, RejectionComment, Pending, 0, None)]
                           case _ => [])
  }

  lemma RowsAfterDecision(s: World, t: World, i: nat)
    requires RowsOk(s) && Decides(s, t, i)
    ensures RowsOk(t)
  {
    hide HasRow, L.InRemediation;
    forall k | 0 <= k < |s.rows| ensures t.rows[k] == s.rows[k] {}
    NewRow(t, i);
    RowStays(s, t, i, SlackRequest);
    forall j | 0 <= j < |t.requests| && j != i
      ensures t.requests[j].decision == Approved ==> HasRow(t, j, ApplyLabel)
      ensures t.requests[j].decision == Rejected ==> HasRow(t, j, RejectionComment)
      ensures HasRow(t, j, SlackRequest)
    {
      assert t.requests[j] == s.requests[j];
      RowStays(s, t, j, SlackRequest);
      if t.requests[j].decision == Approved { RowStays(s, t, j, ApplyLabel); }
      if t.requests[j].decision == Rejected { RowStays(s, t, j, RejectionComment); }
    }
  }

  lemma NewRow(s: World, i: nat)
    ensures s.rows != [] && s.rows[|s.rows| - 1].request == i ==> HasRow(s, i, s.rows[|s.rows| - 1].kind)
  {
    if s.rows != [] { assert s.rows[|s.rows| - 1] in s.rows; }
  }

  lemma DecidesKeeps(s: World, t: World, i: nat)
    requires Inv(s) && Decides(s, t, i)
    ensures Inv(t)
  {
    hide L.InRemediation, RowsOk;
    RowsAfterDecision(s, t, i);
    if L.InRemediation(s.state) {
      var k :| 0 <= k < |s.requests| && Backed(s.requests[k]);
      assert t.requests[k] == s.requests[k] && t.requests[k] in t.requests;
    }
  }

  lemma OutsideRemediation()
    ensures !L.InRemediation(L.AwaitingRemediationApproval) && !L.InRemediation(L.RemediationRejected)
  {}

  /** A verdict on an undecided request, or just a record of the click. */
  lemma ClickDecides(s: World, click: Click, authorized: bool, lapsed: bool)
    ensures
      var t := OnClick(s, click, authorized, lapsed);
      if t.requests == s.requests then Quiet(s, t)
      else Lookup(s, click.token).Some? && Decides(s, t, Lookup(s, click.token).value)
  {
    hide L.InRemediation, IsCurrent, RequestOf, Quiet;
    OutsideRemediation();
    var outcome := ClickOutcome(s, click, authorized, lapsed);
    var t := OnClick(s, click, authorized, lapsed);
    if outcome in {ApprovedNow, RejectedNow} {
      assert Decides(s, t, Lookup(s, click.token).value);
    } else if outcome == ExpiredToken && s.requests[Lookup(s, click.token).value].decision == Undecided {
      assert Decides(s, t, Lookup(s, click.token).value);
    } else {
      QuietSame(s, t);
    }
  }

  lemma ClickKeeps(s: World, click: Click, authorized: bool, lapsed: bool)
    requires Inv(s)
    ensures Inv(OnClick(s, click, authorized, lapsed))
  {
    hide Inv, OnClick, Quiet, Decides, Lookup;
    var t := OnClick(s, click, authorized, lapsed);
    ClickDecides(s, click, authorized, lapsed);
    if t.requests == s.requests { QuietKeeps(s, t); } else { DecidesKeeps(s, t, Lookup(s, click.token).value); }
  }

  lemma ExpireKeeps(s: World, i: nat)
    requires Inv(s)
    ensures Inv(OnExpire(s, i))
  {
    hide Inv, Decides;
    if OnExpire(s, i) != s {
      ExpireDecides(s, i);
      DecidesKeeps(s, OnExpire(s, i), i);
    }
  }

  lemma ExpireDecides(s: World, i: nat)
    requires i < |s.requests| && s.requests[i].decision == Undecided
    ensures Decides(s, OnExpire(s, i), i)
  {
    hide L.InRemediation;
  }

  lemma NextKeeps(s: World, e: Event)
    requires Inv(s)
    ensures Inv(Next(s, e))
  {
    hide Inv, Quiet, OnNewRound, OnClick, OnExpire, OnBegin, OnReplay, OnWebhook, OnCaseMoves, OnComment, OnFail;
    if DecidesNothing(e) {
      NextIsQuiet(s, e);
      QuietKeeps(s, Next(s, e));
    } else {
      match e
      case NewRound(attempt) => NewRoundKeeps(s, attempt);
      case SlackClick(click, authorized, lapsed) => ClickKeeps(s, click, authorized, lapsed);
      case ExpireRequest(i) => ExpireKeeps(s, i);
      case Begin(w, permitted, issue, search, token) => BeginKeeps(s, w, permitted, issue, search, token);
    }
  }

  // ------------------------------------------------------------------ over every run

  lemma {:induction false} RunKeeps(maxAttempts: nat, es: seq<Event>)
    ensures Inv(Run(Initial(maxAttempts), es))
  {
    if es != [] {
      hide Inv, Next;
      RunKeeps(maxAttempts, es[..|es| - 1]);
      NextKeeps(Run(Initial(maxAttempts), es[..|es| - 1]), es[|es| - 1]);
    }
  }

  /** In every run: at most one round is undecided; every request has one Slack row, a label row
      exactly when it was approved and a rejection comment exactly when it was rejected; a token
      resolves to one request; a case is in the remediation phase only if one of its rounds was
      approved, with our label written and confirmed; and it is in REMEDIATION_REJECTED exactly if
      one was rejected. */
  lemma ApprovalDiscipline(maxAttempts: nat, es: seq<Event>)
    ensures
      var s := Run(Initial(maxAttempts), es);
      && (forall i, j | 0 <= i < j < |s.requests| :: !(s.requests[i].decision == s.requests[j].decision == Undecided))
      && (forall i | 0 <= i < |s.requests| :: HasRow(s, i, SlackRequest))
      && (forall i | 0 <= i < |s.requests| :: HasRow(s, i, ApplyLabel) <==> s.requests[i].decision == Approved)
      && (forall i | 0 <= i < |s.requests| :: HasRow(s, i, RejectionComment) <==> s.requests[i].decision == Rejected)
      && (forall k, l | 0 <= k < l < |s.rows| && s.rows[k].kind == s.rows[l].kind :: s.rows[k].request != s.rows[l].request)
      && (forall i, j, token | 0 <= i < j < |s.requests| :: !(Resolves(s.requests[i], token) && Resolves(s.requests[j], token)))
      && (L.InRemediation(s.state) ==> exists r <- s.requests :: Backed(r))
      && (s.state == L.RemediationRejected <==> exists r <- s.requests :: r.decision == Rejected)
  {
    hide L.InRemediation;
    RunKeeps(maxAttempts, es);
    var s := Run(Initial(maxAttempts), es);
    forall i | 0 <= i < |s.requests| && HasRow(s, i, ApplyLabel) ensures s.requests[i].decision == Approved {
      var k :| 0 <= k < |s.rows| && s.rows[k].request == i && s.rows[k].kind == ApplyLabel;
    }
    forall i | 0 <= i < |s.requests| && HasRow(s, i, RejectionComment) ensures s.requests[i].decision == Rejected {
      var k :| 0 <= k < |s.rows| && s.rows[k].request == i && s.rows[k].kind == RejectionComment;
    }
    if s.state == L.RemediationRejected { assert s.requests[|s.requests| - 1] in s.requests; }
  }

  // ------------------------------------------------------------------ a decision is final

  predicate Settled(s: World, t: World) {
    |s.requests| <= |t.requests| &&
    forall i | 0 <= i < |s.requests| && s.requests[i].decision != Undecided :: t.requests[i].decision == s.requests[i].decision
  }

  lemma NextSettles(s: World, e: Event)
    ensures Settled(s, Next(s, e))
  {
    if DecidesNothing(e) {
      hide Next;
      NextIsQuiet(s, e);
      forall i | 0 <= i < |s.requests| ensures Next(s, e).requests[i].decision == s.requests[i].decision {
        assert SameRequest(s.requests[i], Next(s, e).requests[i]);
      }
    } else {
      hide Settled, OnNewRound, OnClick, OnExpire, OnBegin;
      match e
      case NewRound(attempt) => RoundSettles(s, attempt);
      case SlackClick(click, authorized, lapsed) => ClickSettles(s, click, authorized, lapsed);
      case ExpireRequest(i) => ExpireSettles(s, i);
      case Begin(w, permitted, issue, search, token) => BeginSettles(s, w, permitted, issue, search, token);
    }
  }

  lemma RoundSettles(s: World, attempt: nat)
    ensures Settled(s, OnNewRound(s, attempt))
  {
    hide L.Allowed;
  }

  lemma ClickSettles(s: World, click: Click, authorized: bool, lapsed: bool)
    ensures Settled(s, OnClick(s, click, authorized, lapsed))
  {
    hide IsCurrent;
  }

  lemma ExpireSettles(s: World, i: nat)
    ensures Settled(s, OnExpire(s, i))
  {}

  lemma BeginSettles(s: World, w: nat, permitted: bool, issue: IssueAnswer, search: SearchAnswer, token: nat)
    ensures Settled(s, OnBegin(s, w, permitted, issue, search, token))
  {
    if Busy(s, w) && KindAt(s, w) == SlackRequest {
      hide BeginLabel, BeginRejection;
    } else {
      hide OnBegin;
      QuietBegin(s, w, permitted, issue, search, token);
      forall i | 0 <= i < |s.requests|
        ensures OnBegin(s, w, permitted, issue, search, token).requests[i].decision == s.requests[i].decision
      {
        assert SameRequest(s.requests[i], OnBegin(s, w, permitted, issue, search, token).requests[i]);
      }
    }
  }

  /** Whatever follows, a request leaves PENDING at most once: its first decision is its last. */
  lemma {:induction false} DecidedOnce(s: World, es: seq<Event>, i: nat)
    requires i < |s.requests| && s.requests[i].decision != Undecided
    ensures i < |Run(s, es).requests| && Run(s, es).requests[i].decision == s.requests[i].decision
  {
    if es != [] {
      hide Next;
      DecidedOnce(s, es[..|es| - 1], i);
      NextSettles(Run(s, es[..|es| - 1]), es[|es| - 1]);
    }
  }

  /** An authorized user's first click of its kind on an undecided request, by its token. */
  predicate FirstVerdict(s: World, click: Click, authorized: bool, i: nat) {
    && click.action != OtherAction && authorized && click !in s.clicks
    && i < |s.requests| && Resolves(s.requests[i], click.token) && s.requests[i].decision == Undecided
  }

  /** The request is the case's current round, and the case awaits its verdict. */
  predicate Awaited(s: World, i: nat) { IsCurrent(s, i) && s.state == L.AwaitingRemediationApproval }

  /** What a click decides, in every run: in time and on the round that is awaited it approves or
      rejects, too late it lets the request expire, and otherwise it decides nothing. */
  lemma ClickDecidesExactly(maxAttempts: nat, es: seq<Event>, click: Click, authorized: bool, lapsed: bool, i: nat)
    requires i < |Run(Initial(maxAttempts), es).requests|
    ensures
      var s := Run(Initial(maxAttempts), es);
      var t := OnClick(s, click, authorized, lapsed);
      && |t.requests| == |s.requests|
      && t.requests[i].decision ==
         (if !FirstVerdict(s, click, authorized, i) then s.requests[i].decision
          else if lapsed then Expired
          else if !Awaited(s, i) then Undecided
          else if click.action == Approve then Approved else Rejected)
  {
    hide L.Allowed, IsCurrent, RoundsOk, RowsOk, GateOk, RejectionOk;
    RunKeeps(maxAttempts, es);
    var s := Run(Initial(maxAttempts), es);
    hide Run;
    if Resolves(s.requests[i], click.token) && Lookup(s, click.token).Some? {
      OneResolves(s, i, Lookup(s, click.token).value, click.token);
    }
  }

  /** A click approves exactly when it is the first verdict on a live token: an authorized user
      clicks approve, in time, on the current round of a case that awaits it. The case stays where it
      is and the request gets its label row. */
  lemma ApprovesExactly(maxAttempts: nat, es: seq<Event>, click: Click, authorized: bool, lapsed: bool, i: nat)
    ensures
      var s := Run(Initial(maxAttempts), es);
      var t := OnClick(s, click, authorized, lapsed);
      i < |s.requests| && s.requests[i].decision != Approved ==>
        && (t.requests[i].decision == Approved <==>
              click.action == Approve && FirstVerdict(s, click, authorized, i) && !lapsed && Awaited(s, i))
        && (t.requests[i].decision == Approved ==>
              && t.state == s.state && t.requests[i].delivery == Queued && !t.requests[i].token.Live?
              && t.rows == s.rows + [Row(i, ApplyLabel, Pending, 0, None)] && !HasRow(s, i, ApplyLabel))
  {
    hide OnClick, FirstVerdict, Awaited, Run;
    var s := Run(Initial(maxAttempts), es);
    if i < |s.requests| && s.requests[i].decision != Approved {
      ClickDecidesExactly(maxAttempts, es, click, authorized, lapsed, i);
      ApprovalDiscipline(maxAttempts, es);
      ClickFollows(s, click, authorized, lapsed, i);
    }
  }

  /** And it rejects exactly under the same guards, with reject. The case is then in
      REMEDIATION_REJECTED, with one pending rejection comment for the request. */
  lemma RejectsExactly(maxAttempts: nat, es: seq<Event>, click: Click, authorized: bool, lapsed: bool, i: nat)
    ensures
      var s := Run(Initial(maxAttempts), es);
      var t := OnClick(s, click, authorized, lapsed);
      i < |s.requests| && s.requests[i].decision != Rejected ==>
        && (t.requests[i].decision == Rejected <==>
              click.action == Reject && FirstVerdict(s, click, authorized, i) && !lapsed && Awaited(s, i))
        && (t.requests[i].decision == Rejected ==>
              && t.state == L.RemediationRejected && t.requests[i].delivery == NotRequested && !t.requests[i].token.Live?
              && t.rows == s.rows + [Row(i, RejectionComment, Pending, 0, None)] && !HasRow(s, i, RejectionComment))
  {
    hide OnClick, FirstVerdict, Awaited, Run;
    var s := Run(Initial(maxAttempts), es);
    if i < |s.requests| && s.requests[i].decision != Rejected {
      ClickDecidesExactly(maxAttempts, es, click, authorized, lapsed, i);
      ApprovalDiscipline(maxAttempts, es);
      ClickFollows(s, click, authorized, lapsed, i);
    }
  }

  /** What goes with a verdict. */
  lemma ClickFollows(s: World, click: Click, authorized: bool, lapsed: bool, i: nat)
    requires i < |s.requests|
    ensures
      var t := OnClick(s, click, authorized, lapsed);
      && |t.requests| == |s.requests|
      && (t.requests[i].decision != s.requests[i].decision ==> !t.requests[i].token.Live?)
      && (t.requests[i].decision == Approved != s.requests[i].decision ==>
            && click.action == Approve && t.state == s.state && t.requests[i].delivery == Queued
            && t.rows == s.rows + [Row(i, ApplyLabel, Pending, 0, None)])
      && (t.requests[i].decision == Rejected != s.requests[i].decision ==>
            && click.action == Reject && t.state == L.RemediationRejected && t.requests[i].delivery == NotRequested
            && t.rows == s.rows + [Row(i, RejectionComment, Pending, 0, None)])
  {
    hide IsCurrent, RequestOf;
  }

  // ------------------------------------------------------------------ when a row has failed

  /** No row fails. */
  ghost predicate NoneFails(s: World, t: World) {
    |s.rows| <= |t.rows| && forall k | 0 <= k < |s.rows| && t.rows[k].status == RowStatus.Failed :: s.rows[k].status == RowStatus.Failed
  }

  lemma BeginFailsNothing(s: World, w: nat, permitted: bool, issue: IssueAnswer, search: SearchAnswer, token: nat)
    ensures NoneFails(s, OnBegin(s, w, permitted, issue, search, token))
  {
    hide IsCurrent, TruthfulMessage;
  }

  lemma CommentsFailNothing(s: World, w: nat, search: SearchAnswer)
    ensures NoneFails(s, OnComment(s, w, search))
    ensures NoneFails(s, OnFinishComment(s, w)) && NoneFails(s, OnFinishSlack(s, w))
  {
    hide TruthfulComment;
  }

  lemma PostsFailNothing(s: World, w: nat, posted: PostAnswer)
    ensures NoneFails(s, OnPostLabel(s, w, posted)) && NoneFails(s, OnPostComment(s, w, posted)) && NoneFails(s, OnPostSlack(s, w, posted))
    ensures NoneFails(s, OnApplyCommit(s, w)) && NoneFails(s, OnReplay(s, w))
  {
    hide Confirm, Replayable;
    ConfirmFailsNothing(s, None);
  }

  lemma ConfirmFailsNothing(s: World, shows: Option<bool>)
    ensures Confirm(s, shows).rows == s.rows && Confirm(s, shows).dispatchers == s.dispatchers
  {}

  lemma OthersFailNothing(s: World, e: Event)
    requires e.Tick? || e.NewAttempt? || e.NewRound? || e.CaseMoves? || e.LabelChanges? || e.SlackClick? || e.ExpireRequest? ||
             e.LabelWebhook? || e.RetryOutbox? || e.Claim? || e.Crash?
    ensures NoneFails(s, Next(s, e))
  {
    hide IsCurrent, Confirm, L.Allowed, RequestOf;
    if e.LabelWebhook? { ConfirmFailsNothing(s, e.shows); }
  }

  /** A row fails exactly when its handler has failed for good, or once more after all its attempts:
      no other event of any run does it. */
  lemma RowFailsExactly(s: World, e: Event, k: nat)
    requires k < |s.rows| && s.rows[k].status != RowStatus.Failed
    ensures |s.rows| <= |Next(s, e).rows|
    ensures Next(s, e).rows[k].status == RowStatus.Failed <==>
            && e.Fail? && Busy(s, e.w) && s.dispatchers[e.w].row == k && s.dispatchers[e.w].work.Failing?
            && (s.dispatchers[e.w].work.permanent || s.rows[k].attempts >= s.maxAttempts)
  {
    hide OnBegin, OnComment, OnFinishComment, OnFinishSlack, OnPostLabel, OnPostComment, OnPostSlack, OnApplyCommit, OnReplay;
    match e
    case Begin(w, permitted, issue, search, token) => BeginFailsNothing(s, w, permitted, issue, search, token);
    case PostLabel(w, posted) => PostsFailNothing(s, w, posted);
    case ApplyCommit(w) => PostsFailNothing(s, w, Posted);
    case Replay(w) => PostsFailNothing(s, w, Posted);
    case Comment(w, search) => CommentsFailNothing(s, w, search);
    case PostComment(w, posted) => PostsFailNothing(s, w, posted);
    case FinishComment(w) => CommentsFailNothing(s, w, NothingFound);
    case PostSlack(w, posted) => PostsFailNothing(s, w, posted);
    case FinishSlack(w) => CommentsFailNothing(s, w, NothingFound);
    case Fail(w) =>
    case _ => OthersFailNothing(s, e);
  }

  lemma OneResolves(s: World, i: nat, j: nat, token: nat)
    requires TokensOk(s) && i < |s.requests| && j < |s.requests|
    requires Resolves(s.requests[i], token) && Resolves(s.requests[j], token)
    ensures i == j
  {}
}

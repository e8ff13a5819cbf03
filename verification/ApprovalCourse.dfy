/** What the approval flow does to the outside, and when exactly: which step of a dispatcher leads to
    the write of a label, to a Slack message or to a comment, and which event approves the case. The
    laws are about any world and any event. */
module ApprovalCourse {
  import opened Wrappers
  import opened Approvals
  import L = Lifecycle

  /** The dispatcher has just claimed this row, and it is still its own. */
  predicate Starts(s: World, w: nat, kind: RowKind) {
    && Busy(s, w) && s.dispatchers[w].work == Claimed && KindAt(s, w) == kind
    && s.rows[s.dispatchers[w].row].claimedBy == Some(w)
  }

  predicate IsDoing(s: World, w: nat, work: Work) { w in s.dispatchers && s.dispatchers[w].work == work }

  /** The approved label may be written: the decision still stands for the current round, the case is
      where the label belongs, and the issue is open. */
  predicate MayLabel(s: World, i: nat, permitted: bool, issue: IssueAnswer)
    requires i < |s.requests|
  {
    var r := s.requests[i];
    && r.decision == Approved && permitted && IsCurrent(s, i) && issue == IssueOpen
    && (s.state in {L.AwaitingRemediationApproval, L.ApprovalDeliveryFailed} ||
        (s.state == L.RemediationApproved && r.labelAppliedAt.Some?))
  }

  /** The write of an earlier attempt is seen to have landed. */
  predicate SeenLanded(s: World, r: Request) { r.labelRequestedAt.Some? && s.labelOn }

  // ------------------------------------------------------------------ a step moves nobody else

  ghost predicate MovesOnly(s: World, t: World, w: nat) {
    forall v :: v != w ==> (v in t.dispatchers <==> v in s.dispatchers) && (v in s.dispatchers ==> t.dispatchers[v] == s.dispatchers[v])
  }

  lemma BeginMoves(s: World, w: nat, permitted: bool, issue: IssueAnswer, search: SearchAnswer, token: nat)
    ensures MovesOnly(s, OnBegin(s, w, permitted, issue, search, token), w)
  {
    hide BeginLabel, BeginRejection, BeginSlack;
    if Busy(s, w) {
      LabelMoves(s, w, permitted, issue);
      RejectionMoves(s, w, permitted, search, token);
    }
  }

  lemma LabelMoves(s: World, w: nat, permitted: bool, issue: IssueAnswer)
    requires Busy(s, w)
    ensures MovesOnly(s, BeginLabel(s, w, permitted, issue), w)
  {
    hide IsCurrent;
  }

  lemma RejectionMoves(s: World, w: nat, permitted: bool, search: SearchAnswer, token: nat)
    requires Busy(s, w)
    ensures MovesOnly(s, BeginRejection(s, w, permitted), w) && MovesOnly(s, BeginSlack(s, w, search, token), w)
  {
    hide TruthfulMessage;
  }

  lemma PostsMove(s: World, w: nat)
    ensures forall posted :: MovesOnly(s, OnPostLabel(s, w, posted), w) && MovesOnly(s, OnPostComment(s, w, posted), w)
    ensures forall posted :: MovesOnly(s, OnPostSlack(s, w, posted), w)
    ensures forall k :: MovesOnly(s, OnClaim(s, w, k), w)
  {}

  lemma CommentsMove(s: World, w: nat)
    ensures forall search :: MovesOnly(s, OnComment(s, w, search), w)
    ensures MovesOnly(s, OnFinishComment(s, w), w) && MovesOnly(s, OnFinishSlack(s, w), w)
  {
    hide TruthfulComment;
  }

  lemma CommitsMove(s: World, w: nat)
    ensures MovesOnly(s, OnApplyCommit(s, w), w) && MovesOnly(s, OnReplay(s, w), w) && MovesOnly(s, OnFail(s, w), w)
    ensures MovesOnly(s, Leave(s, w), w)
  {
    hide Confirm, Replayable, TerminalFailure;
    ConfirmMovesNobody(s, None);
    FailureMovesNobody();
  }

  lemma ConfirmMovesNobody(s: World, shows: Option<bool>)
    ensures Confirm(s, shows).dispatchers == s.dispatchers
  {}

  lemma FailureMovesNobody()
    ensures forall s: World, i: nat, kind | i < |s.requests| :: TerminalFailure(s, i, kind).dispatchers == s.dispatchers
  {}

  lemma BystandersMove(s: World, e: Event)
    requires Worker(e).None?
    ensures Next(s, e).dispatchers == s.dispatchers
  {
    hide IsCurrent, Confirm, L.Allowed, RequestOf;
    if e.LabelWebhook? { ConfirmMovesNobody(s, e.shows); }
  }

  /** The dispatcher that takes the step, if one does. */
  function Worker(e: Event): Option<nat> {
    match e
    case Claim(w, _) => Some(w)
    case Begin(w, _, _, _, _) => Some(w)
    case PostLabel(w, _) => Some(w)
    case ApplyCommit(w) => Some(w)
    case Replay(w) => Some(w)
    case Comment(w, _) => Some(w)
    case PostComment(w, _) => Some(w)
    case FinishComment(w) => Some(w)
    case PostSlack(w, _) => Some(w)
    case FinishSlack(w) => Some(w)
    case Fail(w) => Some(w)
    case Crash(w) => Some(w)
    case _ => None
  }

  lemma OthersStay(s: World, e: Event, w: nat)
    requires Worker(e) != Some(w)
    ensures w in Next(s, e).dispatchers <==> w in s.dispatchers
    ensures w in s.dispatchers ==> Next(s, e).dispatchers[w] == s.dispatchers[w]
  {
    if Worker(e).None? {
      hide Next;
      BystandersMove(s, e);
    } else {
      hide OnBegin, OnClaim, OnPostLabel, OnApplyCommit, OnReplay, OnComment, OnPostComment, OnFinishComment, OnPostSlack,
        OnFinishSlack, OnFail, Leave;
      var v := Worker(e).value;
      if e.Begin? { BeginMoves(s, v, e.permitted, e.issue, e.search, e.token); }
      PostsMove(s, v);
      CommentsMove(s, v);
      CommitsMove(s, v);
    }
  }

  // ------------------------------------------------------------------ what is written, and when

  /** A dispatcher turns to writing the label exactly when it has just started on the label row of an
      approval that still may be labelled, whose label is neither on record nor seen to have landed;
      and before the write it leaves the request on record. */
  lemma WritesLabelExactly(s: World, e: Event, w: nat)
    requires !IsDoing(s, w, LabelPosting)
    ensures
      var t := Next(s, e);
      var writes :=
        && e.Begin? && e.w == w && Starts(s, w, ApplyLabel)
        && var i := RequestAt(s, w);
           MayLabel(s, i, e.permitted, e.issue) && s.requests[i].labelAppliedAt.None? && !SeenLanded(s, s.requests[i]);
      && (IsDoing(t, w, LabelPosting) <==> writes)
      && (writes ==> var i := RequestAt(s, w);
            t.requests == s.requests[i := s.requests[i].(labelRequestedAt := Some(s.clock))] && t.state == s.state && t.rows == s.rows)
  {
    if Worker(e) != Some(w) {
      hide Next;
      OthersStay(s, e, w);
    } else if e.Begin? {
      hide IsCurrent, TruthfulMessage;
    } else {
      OtherPoints(s, e, w);
    }
  }

  /** Steps that lead to none of the three writes. */
  lemma OtherPoints(s: World, e: Event, w: nat)
    requires Worker(e) == Some(w) && !e.Begin?
    ensures var t := Next(s, e); IsDoing(t, w, LabelPosting) ==> IsDoing(s, w, LabelPosting)
    ensures
      var t := Next(s, e);
      w in t.dispatchers && t.dispatchers[w].work.SlackPosting? ==> w in s.dispatchers && s.dispatchers[w].work.SlackPosting?
    ensures var t := Next(s, e); !e.Comment? && IsDoing(t, w, CommentPosting) ==> IsDoing(s, w, CommentPosting)
  {
    hide Confirm, Replayable, TruthfulComment, TerminalFailure;
    ConfirmMovesNobody(s, None);
    FailureMovesNobody();
  }

  /** A dispatcher turns to posting the Slack message exactly when it has just started on the Slack row
      of a request that is undecided and not notified yet, of a case that awaits its verdict, with a
      new token, and no token was stored before or the search finds no message that carries it; and
      before the post the new token is stored, in place of any other. */
  lemma PostsMessageExactly(s: World, e: Event, w: nat)
    requires !(w in s.dispatchers && s.dispatchers[w].work.SlackPosting?)
    ensures
      var t := Next(s, e);
      var posts :=
        && e.Begin? && e.w == w && Starts(s, w, SlackRequest) && e.token !in s.tokens
        && var i := RequestAt(s, w);
           var r := s.requests[i];
           && r.decision == Undecided && r.notification != Notified && s.state == L.AwaitingRemediationApproval
           && TruthfulMessage(s, i, e.search) && (r.token != NoToken ==> e.search == NothingFound);
      && (w in t.dispatchers && t.dispatchers[w].work.SlackPosting? <==> posts)
      && (posts ==> var i := RequestAt(s, w);
            && t.dispatchers[w].work == SlackPosting(e.token) && t.state == s.state && t.rows == s.rows
            && t.requests == s.requests[i := s.requests[i].(token := Live(e.token), notification := Sending)])
  {
    if Worker(e) != Some(w) {
      hide Next;
      OthersStay(s, e, w);
    } else if e.Begin? {
      hide IsCurrent, TruthfulMessage, BeginLabel, BeginRejection;
      if Busy(s, w) {
        LabelPoints(s, w, e.permitted, e.issue);
        RejectionPoints(s, w, e.permitted);
      }
    } else {
      OtherPoints(s, e, w);
    }
  }

  lemma LabelPoints(s: World, w: nat, permitted: bool, issue: IssueAnswer)
    requires Busy(s, w)
    ensures var t := BeginLabel(s, w, permitted, issue);
            w in t.dispatchers && !t.dispatchers[w].work.SlackPosting? && t.dispatchers[w].work != CommentPosting
  {
    hide IsCurrent;
  }

  lemma RejectionPoints(s: World, w: nat, permitted: bool)
    requires Busy(s, w)
    ensures var t := BeginRejection(s, w, permitted);
            w in t.dispatchers ==> !t.dispatchers[w].work.SlackPosting? && t.dispatchers[w].work != CommentPosting
  {}

  /** A dispatcher turns to posting its comment exactly when no comment is on record and either none was
      asked for before, which is then on record, or the search finds none. */
  lemma PostsCommentExactly(s: World, e: Event, w: nat)
    requires !IsDoing(s, w, CommentPosting)
    ensures
      var t := Next(s, e);
      var posts :=
        && e.Comment? && e.w == w && Busy(s, w) && s.dispatchers[w].work == Commenting
        && var i := RequestAt(s, w);
           var r := s.requests[i];
           && TruthfulComment(s, i, e.search) && r.commentId.None? && (r.commentRequested ==> e.search == NothingFound);
      && (IsDoing(t, w, CommentPosting) <==> posts)
      && (posts ==> var i := RequestAt(s, w);
            t.requests == s.requests[i := s.requests[i].(commentRequested := true)] && t.state == s.state && t.rows == s.rows)
  {
    if Worker(e) != Some(w) {
      hide Next;
      OthersStay(s, e, w);
    } else if e.Begin? {
      hide BeginLabel, BeginRejection, BeginSlack;
      if Busy(s, w) {
        LabelPoints(s, w, e.permitted, e.issue);
        RejectionPoints(s, w, e.permitted);
        if s.dispatchers[w].work == Claimed { SlackPoints(s, w, e.search, e.token); }
      }
    } else if e.Comment? {
      hide Next, OnComment;
      CommentPosts(s, w, e.search);
      assert Next(s, e) == OnComment(s, w, e.search) by { CommentIs(s, e); }
    } else {
      OtherPoints(s, e, w);
    }
  }

  lemma CommentIs(s: World, e: Event)
    requires e.Comment?
    ensures Next(s, e) == OnComment(s, e.w, e.search)
  {}

  lemma CommentPosts(s: World, w: nat, search: SearchAnswer)
    requires !IsDoing(s, w, CommentPosting)
    ensures
      var t := OnComment(s, w, search);
      var posts :=
        && Busy(s, w) && s.dispatchers[w].work == Commenting
        && var i := RequestAt(s, w);
           var r := s.requests[i];
           && TruthfulComment(s, i, search) && r.commentId.None? && (r.commentRequested ==> search == NothingFound);
      && (IsDoing(t, w, CommentPosting) <==> posts)
      && (posts ==> var i := RequestAt(s, w);
            t.requests == s.requests[i := s.requests[i].(commentRequested := true)] && t.state == s.state && t.rows == s.rows)
  {
    hide TruthfulComment;
    if Busy(s, w) { assert s.requests[RequestAt(s, w) := s.requests[RequestAt(s, w)]] == s.requests; }
  }

  lemma SlackPoints(s: World, w: nat, search: SearchAnswer, token: nat)
    requires Busy(s, w) && s.dispatchers[w].work == Claimed
    ensures var t := BeginSlack(s, w, search, token); w in t.dispatchers ==> t.dispatchers[w].work != CommentPosting
  {
    hide TruthfulMessage;
  }

  // ------------------------------------------------------------------ what is recorded, and when

  /** The request is neither recorded as labelled nor as notified by the step. */
  predicate RecordsNothing(s: World, t: World, i: nat) {
    && i < |s.requests| <= |t.requests|
    && (t.requests[i].labelAppliedAt.Some? ==> s.requests[i].labelAppliedAt.Some?)
    && (t.requests[i].notification == Notified ==> s.requests[i].notification == Notified)
  }

  /** The step records the label of request `i`: its write was answered, or an earlier one is seen to
      have landed. */
  predicate RecordsLabel(s: World, e: Event, i: nat) {
    || (e.ApplyCommit? && Busy(s, e.w) && s.dispatchers[e.w].work == LabelPosted && RequestAt(s, e.w) == i)
    || (e.Begin? && Starts(s, e.w, ApplyLabel) && RequestAt(s, e.w) == i && MayLabel(s, i, e.permitted, e.issue) &&
        s.requests[i].labelAppliedAt.None? && SeenLanded(s, s.requests[i]))
  }

  /** The step records that request `i` was announced: its message was posted, or an earlier one found. */
  predicate RecordsMessage(s: World, e: Event, i: nat) {
    || (e.FinishSlack? && Busy(s, e.w) && s.dispatchers[e.w].work.SlackPosted? && RequestAt(s, e.w) == i)
    || (e.Begin? && Starts(s, e.w, SlackRequest) && RequestAt(s, e.w) == i && e.token !in s.tokens &&
        s.requests[i].decision == Undecided && s.state == L.AwaitingRemediationApproval &&
        s.requests[i].token != NoToken && e.search.Found? && TruthfulMessage(s, i, e.search))
  }

  /** Nothing is recorded that was not seen: a request counts as labelled exactly once its write was
      answered or seen, and as notified exactly once its message was posted or found. */
  lemma RecordsExactly(s: World, e: Event, i: nat)
    requires i < |s.requests|
    ensures i < |Next(s, e).requests|
    ensures s.requests[i].labelAppliedAt.None? ==> (Next(s, e).requests[i].labelAppliedAt.Some? <==> RecordsLabel(s, e, i))
    ensures s.requests[i].notification != Notified ==> (Next(s, e).requests[i].notification == Notified <==> RecordsMessage(s, e, i))
  {
    hide Next, RecordsLabel, RecordsMessage;
    if e.Begin? {
      BeginRecords(s, e, i);
    } else if e.ApplyCommit? || e.FinishSlack? {
      CommitRecords(s, e, i);
    } else {
      OthersRecordNothing(s, e, i);
      RecordsMeans(s, e, Next(s, e), i);
    }
  }

  lemma BeginRecords(s: World, e: Event, i: nat)
    requires e.Begin? && i < |s.requests|
    ensures i < |Next(s, e).requests|
    ensures s.requests[i].labelAppliedAt.None? ==> (Next(s, e).requests[i].labelAppliedAt.Some? <==> RecordsLabel(s, e, i))
    ensures s.requests[i].notification != Notified ==> (Next(s, e).requests[i].notification == Notified <==> RecordsMessage(s, e, i))
  {
    hide IsCurrent, TruthfulMessage, BeginLabel, BeginSlack, BeginRejection, MayLabel;
    if Busy(s, e.w) && s.dispatchers[e.w].work == Claimed && s.rows[s.dispatchers[e.w].row].claimedBy == Some(e.w) {
      LabelRecords(s, e.w, e.permitted, e.issue, i);
      SlackRecords(s, e.w, e.search, e.token, i);
      RejectionRecords(s, e.w, e.permitted, i);
    }
  }

  lemma CommitRecords(s: World, e: Event, i: nat)
    requires (e.ApplyCommit? || e.FinishSlack?) && i < |s.requests|
    ensures i < |Next(s, e).requests|
    ensures s.requests[i].labelAppliedAt.None? ==> (Next(s, e).requests[i].labelAppliedAt.Some? <==> RecordsLabel(s, e, i))
    ensures s.requests[i].notification != Notified ==> (Next(s, e).requests[i].notification == Notified <==> RecordsMessage(s, e, i))
  {}

  lemma RecordsMeans(s: World, e: Event, t: World, i: nat)
    requires RecordsNothing(s, t, i) && !e.Begin? && !e.ApplyCommit? && !e.FinishSlack?
    ensures !RecordsLabel(s, e, i) && !RecordsMessage(s, e, i)
    ensures i < |s.requests| <= |t.requests|
    ensures t.requests[i].labelAppliedAt.Some? ==> s.requests[i].labelAppliedAt.Some?
    ensures t.requests[i].notification == Notified ==> s.requests[i].notification == Notified
  {}

  lemma LabelRecords(s: World, w: nat, permitted: bool, issue: IssueAnswer, i: nat)
    requires Busy(s, w) && i < |s.requests|
    ensures
      var t := BeginLabel(s, w, permitted, issue);
      && |t.requests| == |s.requests| && t.requests[i].notification == s.requests[i].notification
      && (s.requests[i].labelAppliedAt.None? ==>
            (t.requests[i].labelAppliedAt.Some? <==> RequestAt(s, w) == i && MayLabel(s, i, permitted, issue) && SeenLanded(s, s.requests[i])))
  {
    hide IsCurrent;
  }

  lemma SlackRecords(s: World, w: nat, search: SearchAnswer, token: nat, i: nat)
    requires Busy(s, w) && i < |s.requests|
    ensures
      var t := BeginSlack(s, w, search, token);
      var r := s.requests[i];
      && |t.requests| == |s.requests| && t.requests[i].labelAppliedAt == r.labelAppliedAt
      && (r.notification != Notified ==>
            (t.requests[i].notification == Notified <==>
             && RequestAt(s, w) == i && token !in s.tokens && r.decision == Undecided && s.state == L.AwaitingRemediationApproval
             && r.token != NoToken && search.Found? && TruthfulMessage(s, i, search)))
  {
    hide TruthfulMessage;
  }

  lemma RejectionRecords(s: World, w: nat, permitted: bool, i: nat)
    requires Busy(s, w) && i < |s.requests|
    ensures BeginRejection(s, w, permitted).requests == s.requests
  {}

  lemma OthersRecordNothing(s: World, e: Event, i: nat)
    requires !e.Begin? && !e.ApplyCommit? && !e.FinishSlack? && i < |s.requests|
    ensures RecordsNothing(s, Next(s, e), i)
  {
    if Worker(e).Some? {
      WorkersRecordNothing(s, e, i);
    } else {
      hide IsCurrent, L.Allowed, RequestOf;
    }
  }

  lemma WorkersRecordNothing(s: World, e: Event, i: nat)
    requires Worker(e).Some? && !e.Begin? && !e.ApplyCommit? && !e.FinishSlack? && i < |s.requests|
    ensures RecordsNothing(s, Next(s, e), i)
  {
    hide Replayable, TruthfulComment, IsCurrent;
  }

  /** The handler's work for row `k` is done with this step: its comment or its message is out, or was
      found to be out, or is not wanted any more. */
  predicate Delivers(s: World, e: Event, k: nat) {
    && Worker(e).Some? && Busy(s, Worker(e).value) && s.dispatchers[Worker(e).value].row == k
    && var w := Worker(e).value;
       var r := s.requests[RequestAt(s, w)];
       match e
       case FinishSlack(_) => s.dispatchers[w].work.SlackPosted?
       case FinishComment(_) => s.dispatchers[w].work.CommentPosted?
       case Comment(_, search) =>
         && s.dispatchers[w].work == Commenting && TruthfulComment(s, RequestAt(s, w), search)
         && (r.commentId.Some? || (r.commentRequested && search.Found?))
       case Begin(_, _, _, search, token) =>
         || (Starts(s, w, RejectionComment) && r.decision == Rejected && r.commentId.Some?)
         || (Starts(s, w, SlackRequest) &&
             (r.notification == Notified || r.decision != Undecided || s.state != L.AwaitingRemediationApproval ||
              (TruthfulMessage(s, RequestAt(s, w), search) && token !in s.tokens && r.token != NoToken && search.Found?)))
       case _ => false
  }

  /** A row is sent exactly when its handler is done; whatever the event. */
  lemma SendsExactly(s: World, e: Event, k: nat)
    requires k < |s.rows| && s.rows[k].status != Sent
    ensures k < |Next(s, e).rows| && (Next(s, e).rows[k].status == Sent <==> Delivers(s, e, k))
  {
    if Worker(e).None? {
      hide IsCurrent, L.Allowed, RequestOf, Confirm;
      if e.LabelWebhook? { ConfirmKeepsRows(s, e.shows); }
    } else if e.Begin? {
      BeginSends(s, e, k);
    } else if e.Comment? || e.FinishComment? || e.FinishSlack? {
      CommentSends(s, e, k);
    } else {
      OthersSendNothing(s, e, k);
    }
  }

  lemma ConfirmKeepsRows(s: World, shows: Option<bool>)
    ensures Confirm(s, shows).rows == s.rows
  {}

  lemma BeginSends(s: World, e: Event, k: nat)
    requires e.Begin? && k < |s.rows| && s.rows[k].status != Sent
    ensures k < |Next(s, e).rows| && (Next(s, e).rows[k].status == Sent <==> Delivers(s, e, k))
  {
    hide BeginLabel, BeginSlack, TruthfulMessage, TruthfulComment;
    if Busy(s, e.w) && s.dispatchers[e.w].work == Claimed {
      SlackSends(s, e.w, e.search, e.token, k);
      LabelSends(s, e.w, e.permitted, e.issue);
    }
  }

  lemma SlackSends(s: World, w: nat, search: SearchAnswer, token: nat, k: nat)
    requires Busy(s, w) && k < |s.rows| && s.rows[k].status != Sent
    ensures
      var t := BeginSlack(s, w, search, token);
      var r := s.requests[RequestAt(s, w)];
      && |t.rows| == |s.rows|
      && (t.rows[k].status == Sent <==>
          s.dispatchers[w].row == k &&
          (r.notification == Notified || r.decision != Undecided || s.state != L.AwaitingRemediationApproval ||
           (TruthfulMessage(s, RequestAt(s, w), search) && token !in s.tokens && r.token != NoToken && search.Found?)))
  {
    hide TruthfulMessage;
  }

  lemma LabelSends(s: World, w: nat, permitted: bool, issue: IssueAnswer)
    requires Busy(s, w)
    ensures BeginLabel(s, w, permitted, issue).rows == s.rows
  {
    hide IsCurrent;
  }

  lemma CommentSends(s: World, e: Event, k: nat)
    requires (e.Comment? || e.FinishComment? || e.FinishSlack?) && k < |s.rows| && s.rows[k].status != Sent
    ensures k < |Next(s, e).rows| && (Next(s, e).rows[k].status == Sent <==> Delivers(s, e, k))
  {
    hide TruthfulMessage, TruthfulComment;
  }

  lemma OthersSendNothing(s: World, e: Event, k: nat)
    requires Worker(e).Some? && !e.Begin? && !e.Comment? && !e.FinishComment? && !e.FinishSlack?
    requires k < |s.rows| && s.rows[k].status != Sent
    ensures k < |Next(s, e).rows| && Next(s, e).rows[k].status != Sent
    ensures !Delivers(s, e, k)
  {
    hide Confirm, Replayable;
    ConfirmKeepsRows(s, None);
    ConfirmMovesNobody(s, None);
  }

  /** A free dispatcher takes up exactly a pending row; each time counts as one of its attempts. */
  lemma TakesUpExactly(s: World, w: nat, k: nat)
    ensures
      var t := Next(s, Claim(w, k));
      if w !in s.dispatchers && k < |s.rows| && s.rows[k].status == Pending then
        && t.rows == s.rows[k := s.rows[k].(attempts := s.rows[k].attempts + 1, claimedBy := Some(w))]
        && t.dispatchers == s.dispatchers[w := Dispatcher(k, Claimed)] && t.requests == s.requests && t.state == s.state
      else t == s
  {}

  // ------------------------------------------------------------------ what an answer means

  predicate TookEffect(posted: PostAnswer) { posted.Posted? || (posted.Unanswered? && posted.landed) }

  /** A handler goes on exactly if its write was acknowledged, and fails otherwise, for good exactly if
      the answer says so; the write is out exactly if it took effect, whether or not that was learned. */
  lemma AnswersDecide(s: World, w: nat, posted: PostAnswer)
    requires Busy(s, w)
    ensures
      var i := RequestAt(s, w);
      var failing := Failing(if posted.Refused? then posted.permanent else posted.Unanswered? && posted.permanent);
      && (s.dispatchers[w].work == LabelPosting ==>
            var t := Next(s, PostLabel(w, posted));
            && t.requests == s.requests && w in t.dispatchers
            && t.dispatchers[w].work == (if posted.Posted? then LabelPosted else failing)
            && t.labelOn == (s.labelOn || TookEffect(posted))
            && t.labelLanded == if TookEffect(posted) then s.labelLanded + {i} else s.labelLanded)
      && (s.dispatchers[w].work == CommentPosting ==>
            var t := Next(s, PostComment(w, posted));
            && t.requests == s.requests && w in t.dispatchers
            && t.dispatchers[w].work == (if posted.Posted? then CommentPosted(|s.comments|) else failing)
            && t.comments == if TookEffect(posted) then s.comments + [i] else s.comments)
      && (s.dispatchers[w].work.SlackPosting? ==>
            var t := Next(s, PostSlack(w, posted));
            && t.requests == s.requests && w in t.dispatchers
            && t.dispatchers[w].work == (if posted.Posted? then SlackPosted(|s.messages|) else failing)
            && t.messages == if TookEffect(posted) then s.messages + [Message(i, s.dispatchers[w].work.token)] else s.messages)
  {}

  /** A label row fails at its start exactly if the approval does not stand any more, or the issue is not
      open - for good - or could not be read, and then for good only if it is no use to try again. */
  lemma LabelGivesUpExactly(s: World, w: nat, permitted: bool, issue: IssueAnswer, search: SearchAnswer, token: nat)
    requires Starts(s, w, ApplyLabel)
    ensures
      var t := Next(s, Begin(w, permitted, issue, search, token));
      var stands := MayLabel(s, RequestAt(s, w), permitted, IssueOpen);
      && w in t.dispatchers
      && (t.dispatchers[w].work.Failing? <==> !stands || issue != IssueOpen)
      && (t.dispatchers[w].work.Failing? ==>
            t.requests == s.requests && t.dispatchers[w].work.permanent == !(stands && issue.IssueError? && issue.retryable))
  {
    hide IsCurrent;
  }

  /** Every delivery of the webhook that can have come is put on record, whatever it confirms. */
  lemma DeliveriesAreKept(s: World, shows: Option<bool>, ours: Option<nat>)
    ensures
      Next(s, LabelWebhook(shows, ours)).webhooks ==
      if ours.None? || ours.value in s.labelLanded then s.webhooks + [Webhook(s.clock, shows, ours)] else s.webhooks
  {
    hide Confirmable;
  }

  // ------------------------------------------------------------------ what approves the case

  /** The current round is approved, its label is on record and not confirmed yet, and the case is
      where the confirmation belongs. */
  predicate Unconfirmed(s: World) {
    && s.requests != []
    && var i := |s.requests| - 1;
       && s.requests[i].decision == Approved && s.requests[i].attempt == s.currentAttempt
       && s.requests[i].labelAppliedAt.Some? && s.requests[i].delivery == LabelApplied
       && s.state in {L.AwaitingRemediationApproval, L.ApprovalDeliveryFailed}
  }

  /** A delivery of the label webhook that can have come, and does not deny the label. */
  predicate Reports(s: World, e: Event) {
    e.LabelWebhook? && (e.ours.None? || e.ours.value in s.labelLanded) && e.shows != Some(false)
  }

  /** The replay that follows a label write, with a delivery since the label was asked for that does not
      deny it. */
  predicate Replays(s: World, e: Event) {
    && e.Replay? && Busy(s, e.w) && s.dispatchers[e.w].work == Replaying
    && var r := s.requests[RequestAt(s, e.w)];
       && r.labelRequestedAt.Some? && r.labelAppliedAt.Some?
       && exists h <- s.webhooks :: h.processedAt >= r.labelRequestedAt.value && h.shows != Some(false)
  }

  /** A case that is not in its remediation yet is approved for it exactly by a delivery, or by the
      replay of one, while the current round is unconfirmed; the round is confirmed with it. */
  lemma ApprovesTheCaseExactly(s: World, e: Event)
    requires !L.InRemediation(s.state)
    ensures
      var t := Next(s, e);
      var approves := Unconfirmed(s) && (Reports(s, e) || Replays(s, e));
      && (t.state == L.RemediationApproved <==> approves)
      && (approves ==>
            var i := |s.requests| - 1;
            t.requests == s.requests[i := s.requests[i].(delivery := Confirmed, labelConfirmedAt := Some(s.clock))])
  {
    ApprovedIsIn();
    hide L.InRemediation;
    match e
    case LabelWebhook(shows, ours) =>
    case Replay(w) =>
      hide Confirmable;
      ReplayApproves(s, w);
    case CaseMoves(to, flagged) => hide L.Allowed;
    case _ => OthersApproveNothing(s, e);
  }

  lemma ApprovedIsIn()
    ensures L.InRemediation(L.RemediationApproved)
  {}

  lemma ReplayApproves(s: World, w: nat)
    requires s.state != L.RemediationApproved
    ensures
      var t := OnReplay(s, w);
      && (t.state == L.RemediationApproved <==> Unconfirmed(s) && Replays(s, Replay(w)))
      && (Unconfirmed(s) && Replays(s, Replay(w)) ==>
            var i := |s.requests| - 1;
            t.requests == s.requests[i := s.requests[i].(delivery := Confirmed, labelConfirmedAt := Some(s.clock))])
  {}

  lemma OthersApproveNothing(s: World, e: Event)
    requires !e.LabelWebhook? && !e.Replay? && !e.CaseMoves? && s.state != L.RemediationApproved
    ensures Next(s, e).state != L.RemediationApproved
  {
    hide IsCurrent, L.Allowed, RequestOf, TruthfulMessage, TruthfulComment;
  }

  // ------------------------------------------------------------------ an operator's retry

  /** A failed row, and no other, is queued again with all its attempts, and what it had failed to
      deliver is on its way again; nobody is asked to approve anew. */
  lemma RetriesExactly(s: World, k: nat)
    requires k < |s.rows| && s.rows[k].request < |s.requests|
    ensures
      var t := Next(s, RetryOutbox(k));
      var row := s.rows[k];
      var r := s.requests[row.request];
      if row.status == RowStatus.Failed then
        && t.rows == s.rows[k := row.(status := Pending, attempts := 0, claimedBy := None)]
        && t.requests == s.requests[row.request := r.(
             delivery := if row.kind == ApplyLabel && r.delivery == Undelivered then Queued else r.delivery,
             notification := if row.kind == SlackRequest && r.notification == NotifyFailed then Unsent else r.notification)]
        && t == s.(rows := t.rows, requests := t.requests)
      else t == s
  {
    assert s.requests[s.rows[k].request := s.requests[s.rows[k].request]] == s.requests;
  }
}

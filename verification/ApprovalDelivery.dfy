/** Exactly-once effects. While no lease lapses under a live dispatcher and searches miss nothing,
    crashes, lost answers and retries leave one comment and one Slack message per request, and a
    confirmed delivery stays confirmed. */
module ApprovalDelivery {
  import opened Wrappers
  import opened Approvals
  import opened ApprovalSafety
  import L = Lifecycle

  // ------------------------------------------------------------------ the invariant

  /** No two dispatchers work on the same row. */
  ghost predicate Exclusive(s: World) {
    forall v, w | v in s.dispatchers && w in s.dispatchers && v != w :: s.dispatchers[v].row != s.dispatchers[w].row
  }

  /** The delivery status tells how far the label got. */
  predicate LabelFields(r: Request) {
    && (r.labelConfirmedAt.Some? ==> r.labelAppliedAt.Some? && r.delivery == Confirmed)
    && (r.labelAppliedAt.Some? && r.labelConfirmedAt.None? ==> r.delivery == LabelApplied)
    && (r.labelAppliedAt.None? ==> r.delivery != LabelApplied && r.delivery != Confirmed)
    && (r.labelAppliedAt.Some? ==> r.decision == Approved)
  }

  /** The stored hash belongs to `token`, unless a newer round wiped it. */
  predicate Matches(r: Request, token: nat) {
    r.token == Live(token) || r.token == Retired(token) || (r.token == NoToken && r.decision == Superseded)
  }

  ghost predicate CommentFields(s: World, i: nat)
    requires i < |s.requests|
  {
    var r := s.requests[i];
    && (!r.commentRequested ==> !HasComment(s, i) && r.commentId.None?)
    && (r.commentId.Some? ==> r.commentId.value < |s.comments| && s.comments[r.commentId.value] == i)
  }

  ghost predicate MessageFields(s: World, i: nat)
    requires i < |s.requests|
  {
    var r := s.requests[i];
    && (forall m <- s.messages :: m.request == i ==> Matches(r, m.token))
    && (r.message.Some? ==> r.message.value < |s.messages| && s.messages[r.message.value].request == i)
    && (r.notification == Notified ==> r.message.Some?)
    && (r.decision == Undecided ==> !r.token.Retired?)
  }

  ghost predicate RequestOk(s: World, i: nat)
    requires i < |s.requests|
  {
    LabelFields(s.requests[i]) && CommentFields(s, i) && MessageFields(s, i)
  }

  /** Every comment and message names a request, and no request is named twice. */
  ghost predicate RemotesOk(s: World) {
    && (forall a | 0 <= a < |s.comments| :: s.comments[a] < |s.requests|)
    && (forall a, b | 0 <= a < b < |s.comments| :: s.comments[a] != s.comments[b])
    && (forall a | 0 <= a < |s.messages| :: s.messages[a].request < |s.requests|)
    && (forall a, b | 0 <= a < b < |s.messages| :: s.messages[a].request != s.messages[b].request)
  }

  /** What a dispatcher at `d` may rely on. */
  ghost predicate WorkOk(s: World, d: Dispatcher) {
    && d.row < |s.rows| && s.rows[d.row].request < |s.requests|
    && var i := s.rows[d.row].request;
       var kind := s.rows[d.row].kind;
       var r := s.requests[i];
       match d.work
       case Claimed => true
       case Failing(_) => true
       case LabelPosting => kind == ApplyLabel && r.labelAppliedAt.None?
       case LabelPosted => kind == ApplyLabel && r.labelAppliedAt.None?
       case Replaying => kind == ApplyLabel && r.labelAppliedAt.Some?
       case Commenting => kind != SlackRequest && (kind == ApplyLabel ==> r.labelAppliedAt.Some?)
       case CommentPosting =>
         kind != SlackRequest && (kind == ApplyLabel ==> r.labelAppliedAt.Some?) && r.commentRequested && !HasComment(s, i)
       case CommentPosted(id) =>
         kind != SlackRequest && (kind == ApplyLabel ==> r.labelAppliedAt.Some?) && r.commentRequested &&
         id < |s.comments| && s.comments[id] == i
       case SlackPosting(token) => kind == SlackRequest && !HasMessage(s, i) && Matches(r, token)
       case SlackPosted(ts) => kind == SlackRequest && ts < |s.messages| && s.messages[ts].request == i
  }

  ghost predicate RequestsOk(s: World) { forall i | 0 <= i < |s.requests| :: RequestOk(s, i) }

  ghost predicate WorksOk(s: World) { forall w <- s.dispatchers :: WorkOk(s, s.dispatchers[w]) }

  ghost predicate Once(s: World) { Exclusive(s) && RequestsOk(s) && RemotesOk(s) && WorksOk(s) }

  /** A row is claimed only when no live dispatcher holds it. */
  ghost predicate Leased(s: World, e: Event) {
    e.Claim? ==> forall v <- s.dispatchers :: s.dispatchers[v].row != e.row
  }

  /** A search that finds nothing means that there is nothing. */
  ghost predicate SearchesExactly(s: World, e: Event) {
    && (e.Begin? && Busy(s, e.w) && e.search.NothingFound? ==> !HasMessage(s, RequestAt(s, e.w)))
    && (e.Comment? && Busy(s, e.w) && e.search.NothingFound? ==> !HasComment(s, RequestAt(s, e.w)))
  }

  // ------------------------------------------------------------------ the shape of a dispatcher's step

  predicate SameSlack(a: Request, b: Request) {
    a.token == b.token && a.notification == b.notification && a.message == b.message
  }

  predicate SameGitHub(a: Request, b: Request) {
    a.labelAppliedAt == b.labelAppliedAt && a.labelConfirmedAt == b.labelConfirmedAt && a.delivery == b.delivery &&
    a.commentRequested == b.commentRequested && a.commentId == b.commentId
  }

  predicate SameRows(s: World, t: World) {
    |t.rows| == |s.rows| &&
    forall k | 0 <= k < |s.rows| :: t.rows[k].request == s.rows[k].request && t.rows[k].kind == s.rows[k].kind
  }

  /** Dispatcher `w` changes its own request, on its own side, and adds at most what it posts. */
  ghost predicate LocalData(s: World, t: World, w: nat) {
    && Busy(s, w) && SameRows(s, t)
    && var i := RequestAt(s, w);
       && |t.requests| == |s.requests| && t.requests == s.requests[i := t.requests[i]]
       && t.requests[i].decision == s.requests[i].decision
       && (if KindAt(s, w) == SlackRequest
           then SameGitHub(s.requests[i], t.requests[i]) && t.comments == s.comments
           else SameSlack(s.requests[i], t.requests[i]) && t.messages == s.messages)
       && (t.comments == s.comments || (t.comments == s.comments + [i] && !HasComment(s, i)))
       && (t.messages == s.messages ||
           (|t.messages| == |s.messages| + 1 && t.messages[..|s.messages|] == s.messages &&
            t.messages[|s.messages|].request == i && !HasMessage(s, i)))
       && RequestOk(t, i)
  }

  ghost predicate Local(s: World, t: World, w: nat) {
    && LocalData(s, t, w)
    && (t.dispatchers == s.dispatchers - {w} ||
        (w in t.dispatchers && t.dispatchers == s.dispatchers[w := t.dispatchers[w]] &&
         t.dispatchers[w].row == s.dispatchers[w].row && WorkOk(t, t.dispatchers[w])))
  }

  /** Requests of others do not notice. */
  lemma OtherRequest(s: World, t: World, w: nat, j: nat)
    requires Once(s) && Local(s, t, w) && j < |s.requests| && j != RequestAt(s, w)
    ensures RequestOk(t, j)
  {
    assert RequestOk(s, j) && t.requests[j] == s.requests[j];
    forall m <- t.messages | m.request == j ensures Matches(t.requests[j], m.token) {
      var a :| 0 <= a < |t.messages| && t.messages[a] == m;
      if a < |s.messages| { assert t.messages[a] == t.messages[..|s.messages|][a]; assert m in s.messages; }
    }
    if s.requests[j].message.Some? {
      var ts := s.requests[j].message.value;
      assert t.messages[ts] == t.messages[..|s.messages|][ts];
    }
  }

  /** Messages are only added, and only for the request at hand. */
  lemma OldMessagesStay(s: World, t: World, w: nat, j: nat)
    requires LocalData(s, t, w)
    ensures forall a | 0 <= a < |s.messages| :: a < |t.messages| && t.messages[a] == s.messages[a]
    ensures j != RequestAt(s, w) || KindAt(s, w) != SlackRequest ==> HasMessage(t, j) == HasMessage(s, j)
  {
    forall a | 0 <= a < |s.messages| ensures a < |t.messages| && t.messages[a] == s.messages[a] {
      if t.messages != s.messages { assert t.messages[a] == t.messages[..|s.messages|][a]; }
    }
    if HasMessage(s, j) {
      var a :| 0 <= a < |s.messages| && s.messages[a].request == j;
      assert t.messages[a] in t.messages;
    }
    if HasMessage(t, j) && (j != RequestAt(s, w) || KindAt(s, w) != SlackRequest) {
      var a :| 0 <= a < |t.messages| && t.messages[a].request == j;
      assert s.messages[a] in s.messages;
    }
  }

  /** A dispatcher on another row does not notice either: rows of one request differ in kind, and
      an approved request is not rejected. */
  lemma OtherWork(s: World, t: World, w: nat, v: nat)
    requires Inv(s) && Once(s) && Local(s, t, w) && v in s.dispatchers && v != w
    ensures WorkOk(t, s.dispatchers[v])
  {
    hide Inv, RequestsOk, RequestOk;
    var d := s.dispatchers[v];
    assert WorkOk(s, d);
    var i, j := RequestAt(s, w), s.rows[d.row].request;
    if i == j { DifferentSides(s, v, w); }
    assert t.rows[d.row].request == j && t.rows[d.row].kind == s.rows[d.row].kind;
    hide HasMessage;
    OldMessagesStay(s, t, w, j);
  }

  lemma DifferentSides(s: World, v: nat, w: nat)
    requires Inv(s) && Exclusive(s) && v in s.dispatchers && w in s.dispatchers && v != w && Busy(s, v) && Busy(s, w)
    requires RequestAt(s, v) == RequestAt(s, w)
    ensures KindAt(s, v) == SlackRequest <==> KindAt(s, w) != SlackRequest
  {
    var k, l := s.dispatchers[v].row, s.dispatchers[w].row;
    if k < l { assert s.rows[k].kind != s.rows[l].kind; } else { assert s.rows[l].kind != s.rows[k].kind; }
  }

  lemma LocalKeeps(s: World, t: World, w: nat)
    requires Inv(s) && Once(s) && Local(s, t, w)
    ensures Once(t)
  {
    hide Inv, WorkOk, RequestOk;
    forall j | 0 <= j < |t.requests| ensures RequestOk(t, j) {
      if j != RequestAt(s, w) { OtherRequest(s, t, w, j); }
    }
    forall v <- t.dispatchers ensures WorkOk(t, t.dispatchers[v]) {
      if v != w { OtherWork(s, t, w, v); }
    }
    forall a | 0 <= a < |s.messages| ensures t.messages[a] == s.messages[a] {
      assert t.messages[a] == t.messages[..|s.messages|][a];
    }
    assert RemotesOk(t) by {
      forall a | 0 <= a < |s.comments| ensures t.comments[a] == s.comments[a] {}
      if t.comments != s.comments {
        forall a | 0 <= a < |s.comments| ensures s.comments[a] != RequestAt(s, w) { assert s.comments[a] in s.comments; }
      }
      if t.messages != s.messages {
        forall a | 0 <= a < |s.messages| ensures s.messages[a].request != RequestAt(s, w) {
          assert s.messages[a] in s.messages;
        }
      }
    }
  }

  // ------------------------------------------------------------------ one lemma per dispatcher step

  lemma AtWork(s: World, w: nat)
    requires Once(s) && w in s.dispatchers
    ensures WorkOk(s, s.dispatchers[w]) && Busy(s, w) && RequestOk(s, RequestAt(s, w))
  {}

  lemma DataIdle(s: World, w: nat)
    requires Busy(s, w) && RequestOk(s, RequestAt(s, w))
    ensures LocalData(s, s, w)
  {
    hide RequestOk;
  }

  /** A change on the GitHub side of the request. */
  lemma DataGitHub(s: World, w: nat, r: Request)
    requires Busy(s, w) && RequestOk(s, RequestAt(s, w)) && KindAt(s, w) != SlackRequest
    requires SameSlack(s.requests[RequestAt(s, w)], r) && r.decision == s.requests[RequestAt(s, w)].decision && LabelFields(r)
    requires CommentFields(SetRequest(s, RequestAt(s, w), r), RequestAt(s, w))
    ensures LocalData(s, SetRequest(s, RequestAt(s, w), r), w)
  {
    hide LabelFields, CommentFields;
  }

  /** A change on the Slack side of the request. */
  lemma DataSlack(s: World, w: nat, r: Request)
    requires Busy(s, w) && RequestOk(s, RequestAt(s, w)) && KindAt(s, w) == SlackRequest
    requires SameGitHub(s.requests[RequestAt(s, w)], r) && r.decision == s.requests[RequestAt(s, w)].decision
    requires MessageFields(SetRequest(s, RequestAt(s, w), r), RequestAt(s, w))
    ensures LocalData(s, SetRequest(s, RequestAt(s, w), r), w)
  {
    hide MessageFields;
  }

  lemma DataSame(s: World, m: World, t: World, w: nat)
    requires LocalData(s, m, w) && SameRows(m, t)
    requires t.requests == m.requests && t.comments == m.comments && t.messages == m.messages
    ensures LocalData(s, t, w)
  {}

  lemma WorkSame(s: World, t: World, d: Dispatcher)
    requires WorkOk(s, d) && t.requests == s.requests && t.rows == s.rows && t.comments == s.comments && t.messages == s.messages
    ensures WorkOk(t, d)
  {}

  lemma LocalGoto(s: World, m: World, w: nat, work: Work)
    requires LocalData(s, m, w) && m.dispatchers == s.dispatchers
    requires WorkOk(m, Dispatcher(s.dispatchers[w].row, work))
    ensures Local(s, Goto(m, w, work), w)
  {
    hide RequestOk, WorkOk;
    DataSame(s, m, Goto(m, w, work), w);
    WorkSame(m, Goto(m, w, work), Dispatcher(s.dispatchers[w].row, work));
  }

  lemma LocalEnd(s: World, m: World, w: nat)
    requires LocalData(s, m, w) && m.dispatchers == s.dispatchers && s.dispatchers[w].row < |m.rows|
    ensures Local(s, Done(m, w), w) && Local(s, Leave(m, w), w)
  {
    hide RequestOk, WorkOk;
    DataSame(s, m, Done(m, w), w);
    DataSame(s, m, Leave(m, w), w);
  }

  lemma LocalBeginLabel(s: World, w: nat, permitted: bool, issue: IssueAnswer)
    requires Inv(s) && Once(s) && Busy(s, w) && KindAt(s, w) == ApplyLabel
    ensures Local(s, BeginLabel(s, w, permitted, issue), w)
  {
    hide Inv, Once, Local, LocalData;
    AtWork(s, w);
    DataIdle(s, w);
    var i := RequestAt(s, w);
    var t := BeginLabel(s, w, permitted, issue);
    var work := t.dispatchers[w].work;
    if work == LabelPosting {
      var r := s.requests[i].(labelRequestedAt := Some(s.clock));
      DataGitHub(s, w, r);
      LocalGoto(s, SetRequest(s, i, r), w, LabelPosting);
    } else if work == Replaying {
      LocalApplied(s, w);
    } else {
      LocalGoto(s, s, w, work);
    }
  }

  lemma LocalApplied(s: World, w: nat)
    requires Once(s) && Busy(s, w) && KindAt(s, w) == ApplyLabel
    requires s.requests[RequestAt(s, w)].decision == Approved && s.requests[RequestAt(s, w)].labelAppliedAt.None?
    ensures Local(s, Applied(s, w), w)
  {
    hide Once, Local, LocalData;
    AtWork(s, w);
    var i := RequestAt(s, w);
    var r := s.requests[i].(labelAppliedAt := Some(s.clock), delivery := LabelApplied);
    DataGitHub(s, w, r);
    LocalGoto(s, SetRequest(s, i, r), w, Replaying);
  }

  /** The fresh token is armed before the POST. */
  lemma LocalArm(s: World, w: nat, token: nat)
    requires Once(s) && Busy(s, w) && KindAt(s, w) == SlackRequest && !HasMessage(s, RequestAt(s, w))
    requires s.requests[RequestAt(s, w)].decision == Undecided
    ensures
      var i := RequestAt(s, w);
      Local(s, Goto(SetRequest(s.(tokens := s.tokens + {token}), i,
                               s.requests[i].(token := Live(token), notification := Sending)), w, SlackPosting(token)), w)
  {
    hide Once, Local, LocalData;
    AtWork(s, w);
    var i := RequestAt(s, w);
    var armed := s.requests[i].(token := Live(token), notification := Sending);
    var m := SetRequest(s.(tokens := s.tokens + {token}), i, armed);
    DataSlack(s, w, armed);
    DataSame(s, SetRequest(s, i, armed), m, w);
    LocalGoto(s, m, w, SlackPosting(token));
  }

  /** A message was posted: the answer is only recorded. */
  lemma LocalNotified(s: World, w: nat, ts: nat)
    requires Once(s) && Busy(s, w) && KindAt(s, w) == SlackRequest
    requires ts < |s.messages| && s.messages[ts].request == RequestAt(s, w)
    ensures
      var i := RequestAt(s, w);
      Local(s, Done(SetRequest(s, i, s.requests[i].(notification := Notified, message := Some(ts))), w), w)
  {
    hide Once, Local, LocalData;
    AtWork(s, w);
    var r := s.requests[RequestAt(s, w)].(notification := Notified, message := Some(ts));
    DataSlack(s, w, r);
    LocalEnd(s, SetRequest(s, RequestAt(s, w), r), w);
  }

  /** Where a message may already be, there is a token. */
  lemma NoTokenNoMessage(s: World, i: nat)
    requires Once(s) && i < |s.requests| && s.requests[i].token == NoToken && s.requests[i].decision == Undecided
    ensures !HasMessage(s, i)
  {
    assert RequestOk(s, i);
  }

  lemma LocalBeginSlack(s: World, w: nat, search: SearchAnswer, token: nat)
    requires Once(s) && Busy(s, w) && KindAt(s, w) == SlackRequest
    requires search.NothingFound? ==> !HasMessage(s, RequestAt(s, w))
    ensures BeginSlack(s, w, search, token) == s || Local(s, BeginSlack(s, w, search, token), w)
  {
    hide Once, Local, LocalData, HasMessage, WorkOk;
    AtWork(s, w);
    DataIdle(s, w);
    LocalEnd(s, s, w);
    var i := RequestAt(s, w);
    var r := s.requests[i];
    if r.decision == Undecided && r.token == NoToken { NoTokenNoMessage(s, i); }
    if r.decision == Undecided && !HasMessage(s, i) { LocalArm(s, w, token); }
    if search.Found? && TruthfulMessage(s, i, search) {
      LocalNotified(s, w, search.at);
      FoundIsMessage(s, i, search);
    }
    if search.SearchError? {
      FailingIsOk(s, w, s, !search.retryable);
      LocalGoto(s, s, w, Failing(!search.retryable));
    }
  }

  lemma FoundIsMessage(s: World, i: nat, search: SearchAnswer)
    requires search.Found? && TruthfulMessage(s, i, search)
    ensures HasMessage(s, i)
  {
    assert s.messages[search.at] in s.messages;
  }

  lemma LocalBeginRejection(s: World, w: nat, permitted: bool)
    requires Once(s) && Busy(s, w) && KindAt(s, w) == RejectionComment
    ensures Local(s, BeginRejection(s, w, permitted), w)
  {
    hide Once, Local, LocalData;
    AtWork(s, w);
    DataIdle(s, w);
    LocalEnd(s, s, w);
    LocalGoto(s, s, w, Failing(true));
    LocalGoto(s, s, w, Commenting);
  }

  lemma LocalBegin(s: World, w: nat, permitted: bool, issue: IssueAnswer, search: SearchAnswer, token: nat)
    requires Inv(s) && Once(s) && SearchesExactly(s, Begin(w, permitted, issue, search, token))
    ensures
      var t := OnBegin(s, w, permitted, issue, search, token);
      t == s || Local(s, t, w)
  {
    hide Inv, Once, Local, LocalData, BeginLabel, BeginSlack, BeginRejection;
    if OnBegin(s, w, permitted, issue, search, token) != s {
      AtWork(s, w);
      DataIdle(s, w);
      LocalEnd(s, s, w);
      match KindAt(s, w)
      case ApplyLabel => LocalBeginLabel(s, w, permitted, issue);
      case RejectionComment => LocalBeginRejection(s, w, permitted);
      case SlackRequest => LocalBeginSlack(s, w, search, token);
    }
  }

  lemma LocalPostLabel(s: World, w: nat, posted: PostAnswer)
    requires Once(s)
    ensures OnPostLabel(s, w, posted) == s || Local(s, OnPostLabel(s, w, posted), w)
  {
    hide Once, Local, LocalData;
    if Busy(s, w) && s.dispatchers[w].work == LabelPosting {
      AtWork(s, w);
      DataIdle(s, w);
      var landed := s.(labelOn := true, labelLanded := s.labelLanded + {RequestAt(s, w)});
      DataSame(s, s, landed, w);
      LocalGoto(s, landed, w, LabelPosted);
      if !posted.Posted? {
        LocalGoto(s, landed, w, Failing(posted.permanent));
        LocalGoto(s, s, w, Failing(posted.permanent));
      }
    }
  }

  lemma LocalPostComment(s: World, w: nat, posted: PostAnswer)
    requires Once(s)
    ensures OnPostComment(s, w, posted) == s || Local(s, OnPostComment(s, w, posted), w)
  {
    hide Once, Local, WorkOk;
    if Busy(s, w) && s.dispatchers[w].work == CommentPosting {
      AtWork(s, w);
      DataIdle(s, w);
      CommentLands(s, w);
      hide LocalData;
      var landed := s.(comments := s.comments + [RequestAt(s, w)]);
      LocalGoto(s, landed, w, CommentPosted(|s.comments|));
      if !posted.Posted? {
        FailingIsOk(s, w, landed, posted.permanent);
        LocalGoto(s, landed, w, Failing(posted.permanent));
        LocalGoto(s, s, w, Failing(posted.permanent));
      }
    }
  }

  lemma FailingIsOk(s: World, w: nat, m: World, permanent: bool)
    requires Busy(s, w) && m.rows == s.rows && m.requests == s.requests
    ensures WorkOk(m, Dispatcher(s.dispatchers[w].row, Failing(permanent)))
    ensures WorkOk(s, Dispatcher(s.dispatchers[w].row, Failing(permanent)))
  {}

  lemma CommentLands(s: World, w: nat)
    requires Busy(s, w) && s.dispatchers[w].work == CommentPosting && WorkOk(s, s.dispatchers[w])
    requires RequestOk(s, RequestAt(s, w))
    ensures
      var m := s.(comments := s.comments + [RequestAt(s, w)]);
      LocalData(s, m, w) && WorkOk(m, Dispatcher(s.dispatchers[w].row, CommentPosted(|s.comments|)))
  {}

  lemma LocalPostSlack(s: World, w: nat, posted: PostAnswer)
    requires Once(s)
    ensures OnPostSlack(s, w, posted) == s || Local(s, OnPostSlack(s, w, posted), w)
  {
    hide Once, Local, WorkOk;
    if Busy(s, w) && s.dispatchers[w].work.SlackPosting? {
      AtWork(s, w);
      DataIdle(s, w);
      MessageLands(s, w);
      hide LocalData;
      var landed := s.(messages := s.messages + [Message(RequestAt(s, w), s.dispatchers[w].work.token)]);
      LocalGoto(s, landed, w, SlackPosted(|s.messages|));
      if !posted.Posted? {
        FailingIsOk(s, w, landed, posted.permanent);
        LocalGoto(s, landed, w, Failing(posted.permanent));
        LocalGoto(s, s, w, Failing(posted.permanent));
      }
    }
  }

  lemma MessageLands(s: World, w: nat)
    requires Busy(s, w) && s.dispatchers[w].work.SlackPosting? && WorkOk(s, s.dispatchers[w])
    requires RequestOk(s, RequestAt(s, w))
    ensures
      var m := s.(messages := s.messages + [Message(RequestAt(s, w), s.dispatchers[w].work.token)]);
      LocalData(s, m, w) && WorkOk(m, Dispatcher(s.dispatchers[w].row, SlackPosted(|s.messages|)))
  {}

  lemma LocalApply(s: World, w: nat)
    requires Inv(s) && Once(s)
    ensures OnApplyCommit(s, w) == s || Local(s, OnApplyCommit(s, w), w)
  {
    hide Once, Local, Applied;
    if Busy(s, w) && s.dispatchers[w].work == LabelPosted {
      AtWork(s, w);
      LocalApplied(s, w);
    }
  }

  lemma LocalCommented(s: World, w: nat, id: nat)
    requires Once(s) && Busy(s, w) && KindAt(s, w) != SlackRequest
    requires KindAt(s, w) == ApplyLabel ==> s.requests[RequestAt(s, w)].labelAppliedAt.Some?
    requires s.requests[RequestAt(s, w)].commentRequested && id < |s.comments| && s.comments[id] == RequestAt(s, w)
    ensures Local(s, Commented(s, w, id), w)
  {
    hide Once, Local, LocalData;
    AtWork(s, w);
    var i := RequestAt(s, w);
    var r := s.requests[i];
    var commented := r.(commentId := Some(id),
                        delivery := if KindAt(s, w) == ApplyLabel && r.delivery == Undelivered
                                    then LabelApplied else r.delivery);
    DataGitHub(s, w, commented);
    LocalEnd(s, SetRequest(s, i, commented), w);
  }

  lemma LocalComment(s: World, w: nat, search: SearchAnswer)
    requires Once(s) && SearchesExactly(s, Event.Comment(w, search))
    ensures OnComment(s, w, search) == s || Local(s, OnComment(s, w, search), w)
  {
    hide Once, Local, LocalData, Commented;
    if Busy(s, w) && s.dispatchers[w].work == Commenting && TruthfulComment(s, RequestAt(s, w), search) {
      AtWork(s, w);
      DataIdle(s, w);
      var i := RequestAt(s, w);
      var r := s.requests[i];
      if r.commentId.Some? {
        LocalCommented(s, w, r.commentId.value);
      } else if !r.commentRequested {
        DataGitHub(s, w, r.(commentRequested := true));
        LocalGoto(s, SetRequest(s, i, r.(commentRequested := true)), w, CommentPosting);
      } else {
        match search
        case Found(id) => LocalCommented(s, w, id);
        case NothingFound => LocalGoto(s, s, w, CommentPosting);
        case SearchError(retryable) => LocalGoto(s, s, w, Failing(!retryable));
      }
    }
  }

  lemma LocalFinish(s: World, w: nat)
    requires Once(s)
    ensures OnFinishComment(s, w) == s || Local(s, OnFinishComment(s, w), w)
    ensures OnFinishSlack(s, w) == s || Local(s, OnFinishSlack(s, w), w)
  {
    hide Once, Local, LocalData, Commented;
    if Busy(s, w) {
      AtWork(s, w);
      var i := RequestAt(s, w);
      if s.dispatchers[w].work.CommentPosted? {
        LocalCommented(s, w, s.dispatchers[w].work.id);
      } else if s.dispatchers[w].work.SlackPosted? {
        LocalNotified(s, w, s.dispatchers[w].work.ts);
      }
    }
  }

  lemma DataFailure(s: World, w: nat, m: World)
    requires Busy(s, w) && RequestOk(s, RequestAt(s, w)) && SameRows(s, m)
    requires m == s.(rows := m.rows)
    ensures LocalData(s, TerminalFailure(m, RequestAt(s, w), KindAt(s, w)), w)
  {
    hide LocalData;
    var i := RequestAt(s, w);
    var r := s.requests[i];
    DataIdle(s, w);
    DataSame(s, s, m, w);
    if KindAt(s, w) == SlackRequest {
      DataSlack(s, w, r.(notification := NotifyFailed));
      DataSame(s, SetRequest(s, i, r.(notification := NotifyFailed)), TerminalFailure(m, i, SlackRequest), w);
    } else if KindAt(s, w) == ApplyLabel && r.labelAppliedAt.None? {
      DataGitHub(s, w, r.(delivery := Undelivered));
      DataSame(s, SetRequest(s, i, r.(delivery := Undelivered)), TerminalFailure(m, i, ApplyLabel), w);
    }
  }

  lemma LocalFail(s: World, w: nat)
    requires Once(s)
    ensures OnFail(s, w) == s || Local(s, OnFail(s, w), w)
  {
    hide Once, Local, LocalData, TerminalFailure, WorkOk;
    if Busy(s, w) && s.dispatchers[w].work.Failing? {
      AtWork(s, w);
      DataIdle(s, w);
      var k := s.dispatchers[w].row;
      var row := s.rows[k];
      var failed := SetRow(s, k, row.(status := RowStatus.Failed, claimedBy := None));
      var queued := SetRow(s, k, row.(claimedBy := None));
      DataFailure(s, w, failed);
      DataSame(s, s, queued, w);
      LocalEnd(s, queued, w);
      FailureFrame(failed, row.request, row.kind);
      LocalEnd(s, TerminalFailure(failed, row.request, row.kind), w);
    }
  }

  lemma FailureFrame(s: World, i: nat, kind: RowKind)
    requires i < |s.requests|
    ensures TerminalFailure(s, i, kind).dispatchers == s.dispatchers && TerminalFailure(s, i, kind).rows == s.rows
  {}

  lemma ReplayGoes(s: World, w: nat)
    requires Once(s) && Busy(s, w) && s.dispatchers[w].work == Replaying
    ensures Local(s, Goto(s, w, Commenting), w)
  {
    hide Once, Local, LocalData;
    AtWork(s, w);
    DataIdle(s, w);
    LocalGoto(s, s, w, Commenting);
  }

  // ------------------------------------------------------------------ everything around the dispatchers

  /** The request moves on, but on neither side in a way a dispatcher relies on. */
  predicate Stable(a: Request, b: Request) {
    && a.labelAppliedAt == b.labelAppliedAt
    && a.commentRequested == b.commentRequested && a.commentId == b.commentId && a.message == b.message
    && (b.notification == Notified ==> a.notification == Notified)
    && LabelFields(b)
    && (b.decision == Undecided ==> a.decision == Undecided && b.token == a.token)
    && (|| (b.token == a.token && (a.decision == Superseded ==> b.decision == Superseded))
        || (a.token.Live? && b.token == Retired(a.token.value))
        || (b.token == NoToken && b.decision == Superseded))
  }

  ghost predicate Around(s: World, t: World) {
    && t.dispatchers == s.dispatchers && t.comments == s.comments && t.messages == s.messages
    && |s.requests| <= |t.requests| && |s.rows| <= |t.rows|
    && (forall i | 0 <= i < |s.requests| :: Stable(s.requests[i], t.requests[i]))
    && (forall i | |s.requests| <= i < |t.requests| :: exists attempt :: t.requests[i] == FreshRequest(attempt))
    && (forall k | 0 <= k < |s.rows| :: t.rows[k].request == s.rows[k].request && t.rows[k].kind == s.rows[k].kind)
  }

  lemma AroundKeeps(s: World, t: World)
    requires Once(s) && Around(s, t)
    ensures Once(t)
  {
    forall i | 0 <= i < |t.requests| ensures RequestOk(t, i) {
      if i < |s.requests| {
        assert Stable(s.requests[i], t.requests[i]) && RequestOk(s, i);
      } else {
        hide RequestOk;
        FreshIsOk(s, t, i);
      }
    }
    forall w <- t.dispatchers ensures WorkOk(t, t.dispatchers[w]) {
      hide RequestOk, LabelFields;
      var d := s.dispatchers[w];
      assert WorkOk(s, d);
      assert Stable(s.requests[s.rows[d.row].request], t.requests[s.rows[d.row].request]);
    }
  }

  lemma FreshIsOk(s: World, t: World, i: nat)
    requires RemotesOk(s) && Around(s, t) && |s.requests| <= i < |t.requests|
    ensures RequestOk(t, i)
  {
    hide Stable;
  }

  /** One request moves on, rows are added or requeued. */
  lemma AroundSet(s: World, t: World, i: nat)
    requires Once(s) && i < |s.requests| && |t.requests| == |s.requests|
    requires t.requests == s.requests[i := t.requests[i]] && Stable(s.requests[i], t.requests[i])
    requires t.dispatchers == s.dispatchers && t.comments == s.comments && t.messages == s.messages
    requires |s.rows| <= |t.rows|
    requires forall k | 0 <= k < |s.rows| :: t.rows[k].request == s.rows[k].request && t.rows[k].kind == s.rows[k].kind
    ensures Around(s, t)
  {
    hide Once, Stable;
    AroundIdle(s);
  }

  lemma AroundConfirm(s: World, shows: Option<bool>)
    requires Once(s)
    ensures Around(s, Confirm(s, shows))
  {
    hide Once;
    AroundIdle(s);
    if Confirmable(s, shows) { SettledFields(s, |s.requests| - 1); }
  }

  lemma AroundWebhook(s: World, shows: Option<bool>, ours: Option<nat>)
    requires Once(s)
    ensures Around(s, OnWebhook(s, shows, ours))
  {
    hide Once, Stable;
    AroundConfirm(s, shows);
    AroundIdle(s);
    assert |Confirm(s, shows).requests| == |s.requests|;
  }

  lemma AroundIdle(s: World)
    requires Once(s)
    ensures Around(s, s)
  {
    forall i | 0 <= i < |s.requests| ensures Stable(s.requests[i], s.requests[i]) {
      assert RequestOk(s, i);
    }
  }

  lemma AroundRound(s: World, attempt: nat)
    requires Once(s)
    ensures Around(s, OnNewRound(s, attempt))
  {
    hide L.Allowed;
    AroundIdle(s);
    var t := OnNewRound(s, attempt);
    forall i | 0 <= i < |s.requests| ensures Stable(s.requests[i], t.requests[i]) {
      assert RequestOk(s, i);
    }
  }

  lemma AroundClick(s: World, click: Click, authorized: bool, lapsed: bool)
    requires Once(s)
    ensures Around(s, OnClick(s, click, authorized, lapsed))
  {
    hide Once, Around, IsCurrent;
    AroundIdle(s);
    var t := OnClick(s, click, authorized, lapsed);
    if t != s {
      var i := Lookup(s, click.token).value;
      SettledFields(s, i);
      AroundSet(s, t, i);
    }
  }

  lemma SettledFields(s: World, i: nat)
    requires Once(s) && i < |s.requests|
    ensures LabelFields(s.requests[i]) && Stable(s.requests[i], s.requests[i])
  {
    assert RequestOk(s, i);
  }

  lemma AroundExpire(s: World, i: nat)
    requires Once(s)
    ensures Around(s, OnExpire(s, i))
  {
    hide Once, Around;
    AroundIdle(s);
    if OnExpire(s, i) != s {
      SettledFields(s, i);
      AroundSet(s, OnExpire(s, i), i);
    }
  }

  lemma AroundRetry(s: World, k: nat)
    requires Once(s)
    ensures Around(s, OnRetry(s, k))
  {
    hide Once, Around;
    AroundIdle(s);
    if OnRetry(s, k) != s {
      SettledFields(s, s.rows[k].request);
      AroundSet(s, OnRetry(s, k), s.rows[k].request);
    }
  }

  lemma ClaimOnce(s: World, w: nat, k: nat)
    requires Inv(s) && Once(s) && Leased(s, Claim(w, k))
    ensures Once(OnClaim(s, w, k))
  {
    var t := OnClaim(s, w, k);
    if t != s {
      forall i | 0 <= i < |t.requests| ensures RequestOk(t, i) { assert RequestOk(s, i); }
      forall v <- t.dispatchers ensures WorkOk(t, t.dispatchers[v]) {
        if v != w { assert WorkOk(s, s.dispatchers[v]); }
      }
    }
  }

  lemma CrashOnce(s: World, w: nat)
    requires Once(s)
    ensures Once(Leave(s, w))
  {
    var t := Leave(s, w);
    forall i | 0 <= i < |t.requests| ensures RequestOk(t, i) { assert RequestOk(s, i); }
    forall v <- t.dispatchers ensures WorkOk(t, t.dispatchers[v]) { assert WorkOk(s, s.dispatchers[v]); }
  }

  lemma ReplayOnce(s: World, w: nat)
    requires Inv(s) && Once(s)
    ensures Once(OnReplay(s, w))
  {
    hide Inv, Once, Confirm, Local;
    if Busy(s, w) && s.dispatchers[w].work == Replaying {
      AroundConfirm(s, None);
      AroundKeeps(s, Confirm(s, None));
      QuietConfirm(s, None);
      QuietKeeps(s, Confirm(s, None));
      SameRowsBusy(s, Confirm(s, None), w);
      ReplayGoes(Confirm(s, None), w);
      LocalKeeps(Confirm(s, None), Goto(Confirm(s, None), w, Commenting), w);
      ReplayGoes(s, w);
      LocalKeeps(s, Goto(s, w, Commenting), w);
    }
  }

  lemma SameRowsBusy(s: World, t: World, w: nat)
    requires Busy(s, w) && Around(s, t)
    ensures Busy(t, w)
  {
    assert t.rows[s.dispatchers[w].row].request == s.rows[s.dispatchers[w].row].request;
  }

  lemma NextOnce(s: World, e: Event)
    requires Inv(s) && Once(s) && Leased(s, e) && SearchesExactly(s, e)
    ensures Once(Next(s, e))
  {
    hide Inv, Once, Leased, SearchesExactly, Local, Around, OnNewRound, OnClick, OnExpire, OnBegin, OnReplay, OnWebhook,
      OnCaseMoves, OnComment, OnFail, OnPostLabel, OnPostComment, OnPostSlack, OnApplyCommit, OnFinishComment,
      OnFinishSlack, OnRetry, OnClaim, Leave;
    var t := Next(s, e);
    match e
    case Claim(w, k) => ClaimOnce(s, w, k);
    case Crash(w) => CrashOnce(s, w);
    case Replay(w) => ReplayOnce(s, w);
    case NewRound(attempt) => AroundRound(s, attempt); AroundKeeps(s, t);
    case SlackClick(click, authorized, lapsed) => AroundClick(s, click, authorized, lapsed); AroundKeeps(s, t);
    case ExpireRequest(i) => AroundExpire(s, i); AroundKeeps(s, t);
    case LabelWebhook(shows, ours) => AroundWebhook(s, shows, ours); AroundKeeps(s, t);
    case RetryOutbox(k) => AroundRetry(s, k); AroundKeeps(s, t);
    case Begin(w, permitted, issue, search, token) =>
      LocalBegin(s, w, permitted, issue, search, token);
      if t != s { LocalKeeps(s, t, w); }
    case PostLabel(w, posted) => LocalPostLabel(s, w, posted); if t != s { LocalKeeps(s, t, w); }
    case PostComment(w, posted) => LocalPostComment(s, w, posted); if t != s { LocalKeeps(s, t, w); }
    case PostSlack(w, posted) => LocalPostSlack(s, w, posted); if t != s { LocalKeeps(s, t, w); }
    case ApplyCommit(w) => LocalApply(s, w); if t != s { LocalKeeps(s, t, w); }
    case Comment(w, search) => LocalComment(s, w, search); if t != s { LocalKeeps(s, t, w); }
    case FinishComment(w) => LocalFinish(s, w); if t != s { LocalKeeps(s, t, w); }
    case FinishSlack(w) => LocalFinish(s, w); if t != s { LocalKeeps(s, t, w); }
    case Fail(w) => LocalFail(s, w); if t != s { LocalKeeps(s, t, w); }
    case _ => AroundRest(s, e); AroundKeeps(s, t);
  }

  lemma AroundRest(s: World, e: Event)
    requires Once(s) && (e.Tick? || e.NewAttempt? || e.CaseMoves? || e.LabelChanges?)
    ensures Around(s, Next(s, e))
  {
    hide Once, Stable, L.Allowed, L.InRemediation;
    AroundIdle(s);
    if e.CaseMoves? { assert OnCaseMoves(s, e.to, e.flagged).requests == s.requests; }
  }

  // ------------------------------------------------------------------ over every run

  ghost predicate ExactRun(maxAttempts: nat, es: seq<Event>) {
    forall n | 0 <= n < |es| ::
      Leased(Run(Initial(maxAttempts), es[..n]), es[n]) && SearchesExactly(Run(Initial(maxAttempts), es[..n]), es[n])
  }

  lemma {:induction false} RunOnce(maxAttempts: nat, es: seq<Event>)
    requires ExactRun(maxAttempts, es)
    ensures Inv(Run(Initial(maxAttempts), es)) && Once(Run(Initial(maxAttempts), es))
  {
    hide Inv, Next, Leased, SearchesExactly;
    RunKeeps(maxAttempts, es);
    if es != [] {
      hide Once;
      var n := |es| - 1;
      assert forall m | 0 <= m < n :: es[..n][..m] == es[..m];
      RunOnce(maxAttempts, es[..n]);
      NextOnce(Run(Initial(maxAttempts), es[..n]), es[n]);
    }
  }

  /** Crashes, lost answers and retries never duplicate a side effect: a request has at most one
      comment and one Slack message, the buttons of an undecided, notified request carry the token
      whose hash is stored, and a case enters remediation on a request that stays confirmed. */
  lemma EffectsHappenOnce(maxAttempts: nat, es: seq<Event>)
    requires ExactRun(maxAttempts, es)
    ensures
      var s := Run(Initial(maxAttempts), es);
      && (forall a, b | 0 <= a < b < |s.comments| :: s.comments[a] != s.comments[b])
      && (forall a, b | 0 <= a < b < |s.messages| :: s.messages[a].request != s.messages[b].request)
      && (forall i | 0 <= i < |s.requests| && s.requests[i].decision == Undecided && s.requests[i].notification == Notified ::
            exists m <- s.messages :: m.request == i && s.requests[i].token == Live(m.token))
      && (L.InRemediation(s.state) ==> exists r <- s.requests :: Backed(r) && r.delivery == Confirmed)
  {
    hide Next;
    RunOnce(maxAttempts, es);
    var s := Run(Initial(maxAttempts), es);
    forall i | 0 <= i < |s.requests| && s.requests[i].decision == Undecided && s.requests[i].notification == Notified
      ensures exists m <- s.messages :: m.request == i && s.requests[i].token == Live(m.token)
    {
      assert RequestOk(s, i);
      var m := s.messages[s.requests[i].message.value];
      assert m in s.messages && Matches(s.requests[i], m.token);
    }
    if L.InRemediation(s.state) {
      var i :| 0 <= i < |s.requests| && Backed(s.requests[i]);
      assert RequestOk(s, i) && s.requests[i] in s.requests;
    }
  }
}

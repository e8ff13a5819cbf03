/** The approval, label and outbox protocol of one case. One event is one committed transaction
    (its row locks make it atomic) or one remote call; dispatchers may crash between any two. */
module Approvals {
  import opened Wrappers
  import L = Lifecycle

  datatype Decision = Undecided | Approved | Rejected | Expired | Superseded

  datatype Delivery = NotRequested | Queued | LabelApplied | Confirmed | Undelivered

  datatype Notification = Unsent | Sending | Notified | NotifyFailed

  /** The stored hash of the action token: of the live token, or of its retired form. */
  datatype Token = NoToken | Live(value: nat) | Retired(value: nat)

  datatype Request = Request(
    attempt: nat,
    decision: Decision,
    delivery: Delivery,
    notification: Notification,
    token: Token,
    labelRequestedAt: Option<nat>,
    labelAppliedAt: Option<nat>,
    labelConfirmedAt: Option<nat>,
    commentRequested: bool,
    commentId: Option<nat>,
    message: Option<nat>)

  datatype RowKind = SlackRequest | ApplyLabel | RejectionComment

  datatype RowStatus = Pending | Sent | Failed

  datatype Row = Row(request: nat, kind: RowKind, status: RowStatus, attempts: nat, claimedBy: Option<nat>)

  /** Where a dispatcher is in the handler of its row, between two events. */
  datatype Work =
    | Claimed
    | LabelPosting
    | LabelPosted
    | Replaying
    | Commenting
    | CommentPosting
    | CommentPosted(id: nat)
    | SlackPosting(token: nat)
    | SlackPosted(ts: nat)
    | Failing(permanent: bool)

  datatype Dispatcher = Dispatcher(row: nat, work: Work)

  datatype Action = Approve | Reject | OtherAction

  datatype Click = Click(token: nat, action: Action, ts: nat, user: nat)

  /** A processed `labeled` delivery: when, whether its issue snapshot shows the label (if it has
      one), and the request whose label write it reports, if it is one of ours. */
  datatype Webhook = Webhook(processedAt: nat, shows: Option<bool>, ours: Option<nat>)

  datatype Message = Message(request: nat, token: nat)

  datatype World = World(
    maxAttempts: nat,
    state: L.CaseState,
    currentAttempt: nat,
    requests: seq<Request>,
    rows: seq<Row>,
    dispatchers: map<nat, Dispatcher>,
    webhooks: seq<Webhook>,
    clicks: set<Click>,
    tokens: set<nat>,
    clock: nat,
    // the remotes: whether the issue carries the label, and the requests whose write of it landed;
    // the request each comment names; the Slack messages
    labelOn: bool,
    labelLanded: set<nat>,
    comments: seq<nat>,
    messages: seq<Message>)

  function Initial(maxAttempts: nat): World {
    World(maxAttempts, L.Received, 0, [], [], map[], [], {}, {}, 0, false, {}, [], [])
  }

  datatype IssueAnswer = IssueOpen | IssueClosed | IssueMissing | IssueError(retryable: bool)

  /** What a search for an earlier comment or message answers. */
  datatype SearchAnswer = Found(at: nat) | NothingFound | SearchError(retryable: bool)

  /** A POST: whether it took effect, and whether the caller learned so. */
  datatype PostAnswer = Posted | Refused(permanent: bool) | Unanswered(landed: bool, permanent: bool)

  datatype Event =
    | Tick
    // the rest of the system
    | NewAttempt(attempt: nat)
    | NewRound(attempt: nat)
    | CaseMoves(to: L.CaseState, flagged: bool)
    | LabelChanges(on: bool)
    // humans and GitHub
    | SlackClick(click: Click, authorized: bool, lapsed: bool)
    | ExpireRequest(request: nat)
    | LabelWebhook(shows: Option<bool>, ours: Option<nat>)
    | RetryOutbox(row: nat)
    // dispatchers
    | Claim(w: nat, row: nat)
    | Begin(w: nat, permitted: bool, issue: IssueAnswer, search: SearchAnswer, token: nat)
    | PostLabel(w: nat, posted: PostAnswer)
    | ApplyCommit(w: nat)
    | Replay(w: nat)
    | Comment(w: nat, search: SearchAnswer)
    | PostComment(w: nat, posted: PostAnswer)
    | FinishComment(w: nat)
    | PostSlack(w: nat, posted: PostAnswer)
    | FinishSlack(w: nat)
    | Fail(w: nat)
    | Crash(w: nat)

  // ------------------------------------------------------------------ rounds

  function SetRequest(s: World, i: nat, r: Request): World
    requires i < |s.requests|
  {
    s.(requests := s.requests[i := r])
  }

  /** `is_current_request`: the newest round, bound to the newest triage attempt. */
  predicate IsCurrent(s: World, i: nat) {
    i < |s.requests| && i == |s.requests| - 1 && s.requests[i].attempt == s.currentAttempt
  }

  function RetireToken(r: Request): Request {
    r.(token := if r.token.Live? then Retired(r.token.value) else r.token)
  }

  function Supersede(r: Request): Request {
    if r.decision == Undecided then r.(decision := Superseded, token := NoToken) else r
  }

  function FreshRequest(attempt: nat): Request {
    Request(attempt, Undecided, NotRequested, Unsent, NoToken, None, None, None, false, None, None)
  }

  /** `create_approval_request`, with the transitions that end triage in the same commit. */
  function OnNewRound(s: World, attempt: nat): World {
    if !L.Allowed(s.state, L.Triaged, false) then s
    else if exists r <- s.requests :: r.attempt == attempt then s.(state := L.AwaitingRemediationApproval)
    else
      var settled := seq(|s.requests|, i requires 0 <= i < |s.requests| => Supersede(s.requests[i]));
      s.(state := L.AwaitingRemediationApproval,
         requests := settled + [FreshRequest(attempt)],
         rows := s.rows + [Row(|s.requests|, SlackRequest, Pending, 0, None)])
  }

  /** Every other part of the system: any edge, but only this protocol enters the remediation
      phase, rejects, or marks a delivery as failed. */
  function OnCaseMoves(s: World, to: L.CaseState, flagged: bool): World {
    if L.Allowed(s.state, to, flagged) && to != L.Triaged && to != L.AwaitingRemediationApproval &&
       to != L.RemediationRejected && to != L.ApprovalDeliveryFailed &&
       (to == L.RemediationApproved ==> L.InRemediation(s.state))
    then s.(state := to) else s
  }

  // ------------------------------------------------------------------ the human decision

  datatype Outcome =
    | ApprovedNow | RejectedNow | Duplicate | AlreadyDecided | UnknownToken | ExpiredToken | StaleToken
    | Unauthorized | IncompatibleState | UnknownAction

  predicate Resolves(r: Request, token: nat) { r.token == Live(token) || r.token == Retired(token) }

  /** The request an action token resolves to; the hash column is unique. */
  function RequestOf(requests: seq<Request>, token: nat, n: nat): (r: Option<nat>)
    requires n <= |requests|
    ensures r.Some? ==> r.value < n && Resolves(requests[r.value], token)
    ensures r.None? ==> forall i | 0 <= i < n :: !Resolves(requests[i], token)
  {
    if n == 0 then None
    else if Resolves(requests[n - 1], token) then Some(n - 1)
    else RequestOf(requests, token, n - 1)
  }

  function Lookup(s: World, token: nat): Option<nat> { RequestOf(s.requests, token, |s.requests|) }

  /** How `process_slack_action` answers a verified click. */
  function ClickOutcome(s: World, click: Click, authorized: bool, lapsed: bool): Outcome {
    if click.action == OtherAction then UnknownAction
    else
      match Lookup(s, click.token)
      case None => UnknownToken
      case Some(i) =>
        var r := s.requests[i];
        if click in s.clicks then Duplicate
        else if !authorized then Unauthorized
        else if r.decision == Undecided && lapsed then ExpiredToken
        else if r.decision == Expired then ExpiredToken
        else if r.decision != Undecided then AlreadyDecided
        else if !IsCurrent(s, i) then StaleToken
        else if s.state != L.AwaitingRemediationApproval then IncompatibleState
        else if click.action == Approve then ApprovedNow
        else RejectedNow
  }

  function OnClick(s: World, click: Click, authorized: bool, lapsed: bool): World {
    var outcome := ClickOutcome(s, click, authorized, lapsed);
    if outcome in {UnknownAction, UnknownToken, Duplicate} then s
    else
      var i := Lookup(s, click.token).value;
      var r := s.requests[i];
      var recorded := s.(clicks := s.clicks + {click});
      match outcome
      case ApprovedNow =>
        SetRequest(recorded, i, RetireToken(r).(decision := Approved, delivery := Queued))
        .(rows := s.rows + [Row(i, ApplyLabel, Pending, 0, None)])
      case RejectedNow =>
        SetRequest(recorded, i, RetireToken(r).(decision := Rejected, delivery := NotRequested))
        .(state := L.RemediationRejected, rows := s.rows + [Row(i, RejectionComment, Pending, 0, None)])
      case ExpiredToken =>
        if r.decision == Undecided then SetRequest(recorded, i, RetireToken(r).(decision := Expired)) else recorded
      case _ => recorded
  }

  /** `expire_request`, asked for by an operator. */
  function OnExpire(s: World, i: nat): World {
    if i < |s.requests| && s.requests[i].decision == Undecided
    then SetRequest(s, i, RetireToken(s.requests[i]).(decision := Expired)) else s
  }

  // ------------------------------------------------------------------ the label webhook

  predicate Confirmable(s: World, shows: Option<bool>) {
    && s.requests != []
    && var i := |s.requests| - 1;
       var r := s.requests[i];
       && r.decision == Approved
       && IsCurrent(s, i)
       && s.state in {L.AwaitingRemediationApproval, L.ApprovalDeliveryFailed}
       && r.labelAppliedAt.Some? && r.delivery == LabelApplied
       && shows != Some(false)
  }

  /** `confirm_label_webhook`. */
  function Confirm(s: World, shows: Option<bool>): World {
    if !Confirmable(s, shows) then s
    else
      var i := |s.requests| - 1;
      SetRequest(s, i, s.requests[i].(delivery := Confirmed, labelConfirmedAt := Some(s.clock)))
      .(state := L.RemediationApproved)
  }

  /** GitHub reports our own write only after it landed; anybody else's label may come any time. */
  function OnWebhook(s: World, shows: Option<bool>, ours: Option<nat>): World {
    if ours.Some? && ours.value !in s.labelLanded then s
    else
      var t := Confirm(s, shows);
      t.(webhooks := t.webhooks + [Webhook(s.clock, shows, ours)])
  }

  /** A delivery processed since the label was requested, whose snapshot does not deny it. */
  predicate Replayable(r: Request, h: Webhook) {
    r.labelRequestedAt.Some? && r.labelAppliedAt.Some? && h.processedAt >= r.labelRequestedAt.value &&
    h.shows != Some(false)
  }

  // ------------------------------------------------------------------ dispatchers

  function Goto(s: World, w: nat, work: Work): World
    requires w in s.dispatchers
  {
    s.(dispatchers := s.dispatchers[w := s.dispatchers[w].(work := work)])
  }

  function Leave(s: World, w: nat): World { s.(dispatchers := s.dispatchers - {w}) }

  function SetRow(s: World, k: nat, row: Row): World
    requires k < |s.rows|
  {
    s.(rows := s.rows[k := row])
  }

  /** The handler returned: the row is sent and the dispatcher moves on. */
  function Done(s: World, w: nat): World
    requires w in s.dispatchers && s.dispatchers[w].row < |s.rows|
  {
    var k := s.dispatchers[w].row;
    Leave(SetRow(s, k, s.rows[k].(status := Sent, claimedBy := None)), w)
  }

  /** `claim`: any pending row whose lease lapsed; leases are not timed here. */
  function OnClaim(s: World, w: nat, k: nat): World {
    if w in s.dispatchers || k >= |s.rows| || s.rows[k].status != Pending then s
    else
      SetRow(s, k, s.rows[k].(attempts := s.rows[k].attempts + 1, claimedBy := Some(w)))
      .(dispatchers := s.dispatchers[w := Dispatcher(k, Claimed)])
  }

  /** `w` works on a row of a request that exist. */
  predicate Busy(s: World, w: nat) {
    w in s.dispatchers && s.dispatchers[w].row < |s.rows| && s.rows[s.dispatchers[w].row].request < |s.requests|
  }

  function RequestAt(s: World, w: nat): nat
    requires Busy(s, w)
  {
    s.rows[s.dispatchers[w].row].request
  }

  function KindAt(s: World, w: nat): RowKind
    requires Busy(s, w)
  {
    s.rows[s.dispatchers[w].row].kind
  }

  predicate HasComment(s: World, i: nat) { i in s.comments }

  predicate HasMessage(s: World, i: nat) { exists m <- s.messages :: m.request == i }

  /** What is found really is there and is this request's. */
  predicate TruthfulComment(s: World, i: nat, search: SearchAnswer) {
    search.Found? ==> search.at < |s.comments| && s.comments[search.at] == i
  }

  predicate TruthfulMessage(s: World, i: nat, search: SearchAnswer) {
    search.Found? ==> search.at < |s.messages| && s.messages[search.at].request == i
  }

  function OnBegin(s: World, w: nat, permitted: bool, issue: IssueAnswer, search: SearchAnswer, token: nat): World {
    if !Busy(s, w) || s.dispatchers[w].work != Claimed then s
    else if s.rows[s.dispatchers[w].row].claimedBy != Some(w) then Leave(s, w)
    else
      match KindAt(s, w)
      case ApplyLabel => BeginLabel(s, w, permitted, issue)
      case RejectionComment => BeginRejection(s, w, permitted)
      case SlackRequest => BeginSlack(s, w, search, token)
  }

  /** `_github_apply_label` up to its first commit. */
  function BeginLabel(s: World, w: nat, permitted: bool, issue: IssueAnswer): World
    requires Busy(s, w)
  {
    var i := RequestAt(s, w);
    var r := s.requests[i];
    if r.decision != Approved || !permitted || !IsCurrent(s, i) then Goto(s, w, Failing(true))
    else if s.state == L.RemediationApproved && r.labelAppliedAt.None? then Goto(s, w, Failing(true))
    else if s.state !in {L.AwaitingRemediationApproval, L.ApprovalDeliveryFailed, L.RemediationApproved} then
      Goto(s, w, Failing(true))
    else if issue.IssueError? then Goto(s, w, Failing(!issue.retryable))
    else if !issue.IssueOpen? then Goto(s, w, Failing(true))
    else if r.labelAppliedAt.Some? then Goto(s, w, Commenting)
    else if r.labelRequestedAt.Some? && s.labelOn then Applied(s, w)
    else Goto(SetRequest(s, i, r.(labelRequestedAt := Some(s.clock))), w, LabelPosting)
  }

  /** The label bookkeeping is committed; the replay comes next. */
  function Applied(s: World, w: nat): World
    requires Busy(s, w)
  {
    var i := RequestAt(s, w);
    Goto(SetRequest(s, i, s.requests[i].(labelAppliedAt := Some(s.clock), delivery := LabelApplied)), w, Replaying)
  }

  function OnPostLabel(s: World, w: nat, posted: PostAnswer): World {
    if !Busy(s, w) || s.dispatchers[w].work != LabelPosting then s
    else
      var landed := s.(labelOn := true, labelLanded := s.labelLanded + {RequestAt(s, w)});
      match posted
      case Posted => Goto(landed, w, LabelPosted)
      case Refused(permanent) => Goto(s, w, Failing(permanent))
      case Unanswered(took, permanent) => Goto(if took then landed else s, w, Failing(permanent))
  }

  function OnApplyCommit(s: World, w: nat): World {
    if !Busy(s, w) || s.dispatchers[w].work != LabelPosted then s else Applied(s, w)
  }

  /** `replay_label_webhooks_after_delivery`. */
  function OnReplay(s: World, w: nat): World {
    if !Busy(s, w) || s.dispatchers[w].work != Replaying then s
    else
      var r := s.requests[RequestAt(s, w)];
      if exists h <- s.webhooks :: Replayable(r, h) then Goto(Confirm(s, None), w, Commenting)
      else Goto(s, w, Commenting)
  }

  function BeginRejection(s: World, w: nat, permitted: bool): World
    requires Busy(s, w)
  {
    var r := s.requests[RequestAt(s, w)];
    if r.decision != Rejected then Goto(s, w, Failing(true))
    else if r.commentId.Some? then Done(s, w)
    else if !permitted then Goto(s, w, Failing(true))
    else Goto(s, w, Commenting)
  }

  /** The tail of both comment handlers: a label that landed is not reported as undelivered. */
  function Commented(s: World, w: nat, id: nat): World
    requires Busy(s, w)
  {
    var i := RequestAt(s, w);
    var r := s.requests[i];
    Done(SetRequest(s, i, r.(commentId := Some(id),
                             delivery := if KindAt(s, w) == ApplyLabel && r.delivery == Undelivered
                                         then LabelApplied else r.delivery)), w)
  }

  /** `_ensure_comment` up to its POST. */
  function OnComment(s: World, w: nat, search: SearchAnswer): World {
    if !Busy(s, w) || s.dispatchers[w].work != Commenting || !TruthfulComment(s, RequestAt(s, w), search) then s
    else
      var i := RequestAt(s, w);
      var r := s.requests[i];
      if r.commentId.Some? then Commented(s, w, r.commentId.value)
      else if !r.commentRequested then Goto(SetRequest(s, i, r.(commentRequested := true)), w, CommentPosting)
      else
        match search
        case Found(id) => Commented(s, w, id)
        case NothingFound => Goto(s, w, CommentPosting)
        case SearchError(retryable) => Goto(s, w, Failing(!retryable))
  }

  function OnPostComment(s: World, w: nat, posted: PostAnswer): World {
    if !Busy(s, w) || s.dispatchers[w].work != CommentPosting then s
    else
      var landed := s.(comments := s.comments + [RequestAt(s, w)]);
      match posted
      case Posted => Goto(landed, w, CommentPosted(|s.comments|))
      case Refused(permanent) => Goto(s, w, Failing(permanent))
      case Unanswered(took, permanent) => Goto(if took then landed else s, w, Failing(permanent))
  }

  function OnFinishComment(s: World, w: nat): World {
    if !Busy(s, w) || !s.dispatchers[w].work.CommentPosted? then s
    else Commented(s, w, s.dispatchers[w].work.id)
  }

  /** `_slack_approval_request` up to its POST. Tokens are never generated twice. */
  function BeginSlack(s: World, w: nat, search: SearchAnswer, token: nat): World
    requires Busy(s, w)
  {
    var i := RequestAt(s, w);
    var r := s.requests[i];
    if r.notification == Notified || r.decision != Undecided || s.state != L.AwaitingRemediationApproval then Done(s, w)
    else if !TruthfulMessage(s, i, search) || token in s.tokens then s
    else if r.token != NoToken && search.SearchError? then Goto(s, w, Failing(!search.retryable))
    else if r.token != NoToken && search.Found? then
      Done(SetRequest(s, i, r.(notification := Notified, message := Some(search.at))), w)
    else
      Goto(SetRequest(s.(tokens := s.tokens + {token}), i, r.(token := Live(token), notification := Sending)), w,
           SlackPosting(token))
  }

  function OnPostSlack(s: World, w: nat, posted: PostAnswer): World {
    if !Busy(s, w) || !s.dispatchers[w].work.SlackPosting? then s
    else
      var landed := s.(messages := s.messages + [Message(RequestAt(s, w), s.dispatchers[w].work.token)]);
      match posted
      case Posted => Goto(landed, w, SlackPosted(|s.messages|))
      case Refused(permanent) => Goto(s, w, Failing(permanent))
      case Unanswered(took, permanent) => Goto(if took then landed else s, w, Failing(permanent))
  }

  function OnFinishSlack(s: World, w: nat): World {
    if !Busy(s, w) || !s.dispatchers[w].work.SlackPosted? then s
    else
      var i := RequestAt(s, w);
      Done(SetRequest(s, i, s.requests[i].(notification := Notified, message := Some(s.dispatchers[w].work.ts))), w)
  }

  /** `_on_terminal_failure`. */
  function TerminalFailure(s: World, i: nat, kind: RowKind): World
    requires i < |s.requests|
  {
    var r := s.requests[i];
    match kind
    case SlackRequest => SetRequest(s, i, r.(notification := NotifyFailed))
    case RejectionComment => s
    case ApplyLabel =>
      if r.labelAppliedAt.Some? then s
      else
        var failed := SetRequest(s, i, r.(delivery := Undelivered));
        if s.state == L.AwaitingRemediationApproval then failed.(state := L.ApprovalDeliveryFailed) else failed
  }

  /** `_fail`: the handler's uncommitted changes are gone; a retry is scheduled or the row fails. */
  function OnFail(s: World, w: nat): World {
    if !Busy(s, w) || !s.dispatchers[w].work.Failing? then s
    else
      var k := s.dispatchers[w].row;
      var row := s.rows[k];
      if s.dispatchers[w].work.permanent || row.attempts >= s.maxAttempts then
        Leave(TerminalFailure(SetRow(s, k, row.(status := Failed, claimedBy := None)), row.request, row.kind), w)
      else Leave(SetRow(s, k, row.(claimedBy := None)), w)
  }

  /** `retry_outbox`: re-queue a failed row without asking anyone to approve again. */
  function OnRetry(s: World, k: nat): World {
    if k >= |s.rows| || s.rows[k].status != Failed || s.rows[k].request >= |s.requests| then s
    else
      var row := s.rows[k];
      var r := s.requests[row.request];
      var queued := SetRow(s, k, row.(status := Pending, attempts := 0, claimedBy := None));
      if row.kind == ApplyLabel && r.delivery == Undelivered then
        SetRequest(queued, row.request, r.(delivery := Queued))
      else if row.kind == SlackRequest && r.notification == NotifyFailed then
        SetRequest(queued, row.request, r.(notification := Unsent))
      else queued
  }

  // ------------------------------------------------------------------ runs

  function Next(s: World, e: Event): World {
    match e
    case Tick => s.(clock := s.clock + 1)
    case NewAttempt(attempt) => s.(currentAttempt := attempt)
    case NewRound(attempt) => OnNewRound(s, attempt)
    case CaseMoves(to, flagged) => OnCaseMoves(s, to, flagged)
    case LabelChanges(on) => s.(labelOn := on)
    case SlackClick(click, authorized, lapsed) => OnClick(s, click, authorized, lapsed)
    case ExpireRequest(i) => OnExpire(s, i)
    case LabelWebhook(shows, ours) => OnWebhook(s, shows, ours)
    case RetryOutbox(k) => OnRetry(s, k)
    case Claim(w, k) => OnClaim(s, w, k)
    case Begin(w, permitted, issue, search, token) => OnBegin(s, w, permitted, issue, search, token)
    case PostLabel(w, posted) => OnPostLabel(s, w, posted)
    case ApplyCommit(w) => OnApplyCommit(s, w)
    case Replay(w) => OnReplay(s, w)
    case Comment(w, search) => OnComment(s, w, search)
    case PostComment(w, posted) => OnPostComment(s, w, posted)
    case FinishComment(w) => OnFinishComment(s, w)
    case PostSlack(w, posted) => OnPostSlack(s, w, posted)
    case FinishSlack(w) => OnFinishSlack(s, w)
    case Fail(w) => OnFail(s, w)
    case Crash(w) => Leave(s, w)
  }

  function Run(s: World, es: seq<Event>): World {
    if es == [] then s else Next(Run(s, es[..|es| - 1]), es[|es| - 1])
  }
}

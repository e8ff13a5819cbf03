/** When a delivery stays CONFIRMED. Only the commit of a second label write can take it back: it
    writes LABEL_APPLIED without looking at what the request has become. */
module ConfirmedDelivery {
  import opened Wrappers
  import opened Approvals
  import L = Lifecycle

  /** The commit of a label write for request `i`. */
  predicate CommitsLabel(s: World, e: Event, i: nat) {
    e.ApplyCommit? && Busy(s, e.w) && s.dispatchers[e.w].work == LabelPosted && RequestAt(s, e.w) == i
  }

  /** A confirmed request was approved, and its label is on record. */
  predicate Earned(r: Request) { r.delivery == Confirmed ==> r.decision == Approved && r.labelAppliedAt.Some? }

  ghost predicate AllEarned(s: World) { forall i | 0 <= i < |s.requests| :: Earned(s.requests[i]) }

  /** What a step does to a request: a confirmed one keeps its delivery, unless `lost`. */
  predicate KeepsDelivery(a: Request, b: Request, lost: bool) {
    Earned(a) ==> Earned(b) && (a.delivery == Confirmed ==> (b.delivery == Confirmed <==> !lost))
  }

  ghost predicate KeepsDeliveries(s: World, t: World) {
    && |s.requests| <= |t.requests|
    && (forall i | 0 <= i < |s.requests| :: KeepsDelivery(s.requests[i], t.requests[i], false))
    && (forall i | |s.requests| <= i < |t.requests| :: Earned(t.requests[i]))
  }

  lemma KeepsIdle(s: World, t: World)
    requires t.requests == s.requests
    ensures KeepsDeliveries(s, t)
  {}

  lemma KeepsSet(s: World, i: nat, r: Request, t: World)
    requires i < |s.requests| && KeepsDelivery(s.requests[i], r, false) && t.requests == s.requests[i := r]
    ensures KeepsDeliveries(s, t)
  {}

  lemma KeepsConfirm(s: World, shows: Option<bool>)
    ensures KeepsDeliveries(s, Confirm(s, shows))
  {}

  lemma KeepsClick(s: World, click: Click, authorized: bool, lapsed: bool)
    ensures KeepsDeliveries(s, OnClick(s, click, authorized, lapsed))
  {
    hide KeepsDeliveries, IsCurrent;
    var t := OnClick(s, click, authorized, lapsed);
    if t.requests == s.requests {
      KeepsIdle(s, t);
    } else {
      var i := Lookup(s, click.token).value;
      KeepsSet(s, i, t.requests[i], t);
    }
  }

  lemma KeepsRound(s: World, attempt: nat)
    ensures KeepsDeliveries(s, OnNewRound(s, attempt))
  {
    hide L.Allowed;
  }

  lemma KeepsRest(s: World, e: Event)
    requires e.Tick? || e.NewAttempt? || e.CaseMoves? || e.LabelChanges? || e.ExpireRequest? || e.RetryOutbox? || e.Claim? || e.Crash?
    ensures KeepsDeliveries(s, Next(s, e))
  {
    hide L.Allowed, L.InRemediation;
  }

  lemma KeepsBegin(s: World, w: nat, permitted: bool, issue: IssueAnswer, search: SearchAnswer, token: nat)
    ensures KeepsDeliveries(s, OnBegin(s, w, permitted, issue, search, token))
  {
    hide KeepsDeliveries, BeginLabel, BeginSlack;
    var t := OnBegin(s, w, permitted, issue, search, token);
    if Busy(s, w) {
      KeepsBeginLabel(s, w, permitted, issue);
      KeepsBeginSlack(s, w, search, token);
    }
    KeepsIdle(s, s);
    SameDeliveries(s, s, t);
  }

  lemma KeepsBeginLabel(s: World, w: nat, permitted: bool, issue: IssueAnswer)
    requires Busy(s, w)
    ensures KeepsDeliveries(s, BeginLabel(s, w, permitted, issue))
  {
    hide IsCurrent;
  }

  lemma KeepsBeginSlack(s: World, w: nat, search: SearchAnswer, token: nat)
    requires Busy(s, w)
    ensures KeepsDeliveries(s, BeginSlack(s, w, search, token))
  {
    hide TruthfulMessage;
  }

  lemma KeepsPosts(s: World, e: Event)
    requires e.PostLabel? || e.PostComment? || e.PostSlack? || e.FinishSlack?
    ensures KeepsDeliveries(s, Next(s, e))
  {}

  lemma KeepsCommented(s: World, w: nat, id: nat)
    requires Busy(s, w)
    ensures KeepsDeliveries(s, Commented(s, w, id))
  {}

  lemma KeepsComments(s: World, e: Event)
    requires e.Comment? || e.FinishComment?
    ensures KeepsDeliveries(s, Next(s, e))
  {
    hide TruthfulComment, Commented, KeepsDeliveries;
    KeepsIdle(s, s);
    var t := Next(s, e);
    if Busy(s, e.w) {
      var i := RequestAt(s, e.w);
      KeepsSet(s, i, s.requests[i].(commentRequested := true), SetRequest(s, i, s.requests[i].(commentRequested := true)));
      SameDeliveries(s, SetRequest(s, i, s.requests[i].(commentRequested := true)), t);
      if s.requests[i].commentId.Some? { KeepsCommented(s, e.w, s.requests[i].commentId.value); }
      if e.Comment? && e.search.Found? { KeepsCommented(s, e.w, e.search.at); }
      if s.dispatchers[e.w].work.CommentPosted? { KeepsCommented(s, e.w, s.dispatchers[e.w].work.id); }
    }
    SameDeliveries(s, s, t);
  }

  lemma KeepsFail(s: World, w: nat)
    ensures KeepsDeliveries(s, OnFail(s, w))
  {
    hide KeepsDeliveries;
    var t := OnFail(s, w);
    if t.requests == s.requests {
      KeepsIdle(s, t);
    } else {
      var i := RequestAt(s, w);
      KeepsSet(s, i, t.requests[i], t);
    }
  }

  lemma KeepsWebhook(s: World, e: Event)
    requires e.LabelWebhook? || e.Replay?
    ensures KeepsDeliveries(s, Next(s, e))
  {
    hide KeepsDeliveries, Confirmable;
    KeepsIdle(s, s);
    match e
    case LabelWebhook(shows, ours) =>
      KeepsConfirm(s, shows);
      SameDeliveries(s, Confirm(s, shows), OnWebhook(s, shows, ours));
      SameDeliveries(s, s, OnWebhook(s, shows, ours));
    case Replay(w) =>
      KeepsConfirm(s, None);
      SameDeliveries(s, Confirm(s, None), OnReplay(s, w));
      SameDeliveries(s, s, OnReplay(s, w));
  }

  lemma SameDeliveries(s: World, m: World, t: World)
    ensures KeepsDeliveries(s, m) && t.requests == m.requests ==> KeepsDeliveries(s, t)
  {}

  /** Every event but the commit of a label write lets every confirmed delivery be. */
  lemma OthersKeep(s: World, e: Event)
    requires !e.ApplyCommit?
    ensures KeepsDeliveries(s, Next(s, e))
  {
    hide KeepsDeliveries, OnNewRound, OnClick, OnExpire, OnBegin, OnReplay, OnWebhook, OnCaseMoves, OnComment, OnFail,
      OnPostLabel, OnPostComment, OnPostSlack, OnFinishComment, OnFinishSlack, OnRetry, OnClaim, Leave;
    match e
    case NewRound(attempt) => KeepsRound(s, attempt);
    case SlackClick(click, authorized, lapsed) => KeepsClick(s, click, authorized, lapsed);
    case LabelWebhook(_, _) => KeepsWebhook(s, e);
    case Replay(_) => KeepsWebhook(s, e);
    case Begin(w, permitted, issue, search, token) => KeepsBegin(s, w, permitted, issue, search, token);
    case PostLabel(_, _) => KeepsPosts(s, e);
    case PostComment(_, _) => KeepsPosts(s, e);
    case PostSlack(_, _) => KeepsPosts(s, e);
    case FinishSlack(_) => KeepsPosts(s, e);
    case Comment(_, _) => KeepsComments(s, e);
    case FinishComment(_) => KeepsComments(s, e);
    case Fail(w) => KeepsFail(s, w);
    case _ => KeepsRest(s, e);
  }

  lemma StaysRequested(s: World, e: Event)
    ensures |s.requests| <= |Next(s, e).requests|
  {
    if !e.ApplyCommit? {
      hide Next;
      OthersKeep(s, e);
    }
  }

  lemma StepOnDelivery(s: World, e: Event, i: nat)
    requires i < |Next(s, e).requests|
    ensures |s.requests| <= |Next(s, e).requests|
    ensures i < |s.requests| ==> KeepsDelivery(s.requests[i], Next(s, e).requests[i], CommitsLabel(s, e, i))
    ensures i >= |s.requests| ==> Earned(Next(s, e).requests[i])
  {
    if e.ApplyCommit? {
      assert Next(s, e).requests == OnApplyCommit(s, e.w).requests;
    } else {
      hide Next;
      OthersKeep(s, e);
    }
  }

  lemma {:induction false} RunIsEarned(maxAttempts: nat, es: seq<Event>)
    ensures AllEarned(Run(Initial(maxAttempts), es))
  {
    if es != [] {
      hide Next;
      var s := Run(Initial(maxAttempts), es[..|es| - 1]);
      var e := es[|es| - 1];
      RunIsEarned(maxAttempts, es[..|es| - 1]);
      forall i | 0 <= i < |Next(s, e).requests| ensures Earned(Next(s, e).requests[i]) {
        StepOnDelivery(s, e, i);
      }
    }
  }

  /** In every reachable world, whatever the event: a confirmed delivery stays confirmed exactly
      unless the event is the commit of a label write for the same request. */
  lemma ConfirmedStaysExactly(maxAttempts: nat, es: seq<Event>, e: Event, i: nat)
    requires
      var s := Run(Initial(maxAttempts), es);
      i < |s.requests| && s.requests[i].delivery == Confirmed
    ensures
      var s := Run(Initial(maxAttempts), es);
      i < |Next(s, e).requests| && (Next(s, e).requests[i].delivery == Confirmed <==> !CommitsLabel(s, e, i))
  {
    hide Next, Run;
    RunIsEarned(maxAttempts, es);
    StaysRequested(Run(Initial(maxAttempts), es), e);
    StepOnDelivery(Run(Initial(maxAttempts), es), e, i);
  }

  function At(maxAttempts: nat, es: seq<Event>, n: nat): World
    requires n <= |es|
  {
    Run(Initial(maxAttempts), es[..n])
  }

  predicate ConfirmedAt(s: World, i: nat) { i < |s.requests| && s.requests[i].delivery == Confirmed }

  /** Over every run: from the moment it is confirmed a delivery stays confirmed up to the end
      exactly if no label write for its request is committed in between. */
  lemma {:induction false} ConfirmedForGoodExactly(maxAttempts: nat, es: seq<Event>, k: nat, n: nat, i: nat)
    requires k <= n <= |es| && ConfirmedAt(At(maxAttempts, es, k), i)
    ensures (forall m | k <= m <= n :: ConfirmedAt(At(maxAttempts, es, m), i)) <==>
            (forall m | k <= m < n :: !CommitsLabel(At(maxAttempts, es, m), es[m], i))
  {
    hide Next, CommitsLabel, ConfirmedAt, Run;
    if k < n {
      ConfirmedForGoodExactly(maxAttempts, es, k, n - 1, i);
      if ConfirmedAt(At(maxAttempts, es, n - 1), i) { ConfirmedOnce(maxAttempts, es, n - 1, i); }
    }
  }

  lemma ConfirmedOnce(maxAttempts: nat, es: seq<Event>, n: nat, i: nat)
    requires n < |es| && ConfirmedAt(At(maxAttempts, es, n), i)
    ensures ConfirmedAt(At(maxAttempts, es, n + 1), i) <==> !CommitsLabel(At(maxAttempts, es, n), es[n], i)
  {
    hide Next, CommitsLabel;
    ConfirmedStaysExactly(maxAttempts, es[..n], es[n], i);
    assert es[..n + 1][..n] == es[..n];
  }
}

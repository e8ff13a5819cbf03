/** The loops of the session runner, as they update an attempt table in place. The remote answers
    are parameters; each loop is proved against what it promises. */
module SessionRunner {
  import opened Wrappers
  import opened Tags
  import opened SessionModel
  import opened SessionProtocol
  import L = Lifecycle
  import S = Status

  // ------------------------------------------------------------------ polling

  /** What one `get_session` comes to. */
  datatype Reading = Broken | Missing | Read(status: Option<string>, detail: Option<string>, output: bool)

  datatype PollEnd = CancelSeen | DeadlineReached | SessionMissing | SettledAs(disposition: S.Disposition)

  /** What `_disposition` makes of a session that was read. */
  function Verdict(r: Reading): S.Disposition
    requires r.Read?
  {
    S.Dispose(r.status, r.detail, r.output).disposition
  }

  /** The reading ends the polling: the session is not found, has done its work, waits or is stuck. */
  predicate Decisive(r: Reading) {
    || r.Missing?
    || (r.Read? && var s, d := S.Normalize(r.status), S.Normalize(r.detail); S.Done(s, d) || S.Waits(s, d) || S.Stuck(s, d))
  }

  /** How a session ends that was read as ended: one that waits has finished if it has output. */
  function Meaning(r: Reading): S.Disposition
    requires r.Read? && Decisive(r)
  {
    var s, d := S.Normalize(r.status), S.Normalize(r.detail);
    if S.Stuck(s, d) then S.Failed else if S.Waits(s, d) && !r.output then S.WaitingForHuman else S.Finished
  }

  predicate Unclear(r: Reading)
    requires r.Read?
  {
    S.Unclear(S.Normalize(r.status), S.Normalize(r.detail))
  }

  /** What the classifier answers is what the status and the detail mean. */
  lemma VerdictMeans(r: Reading)
    ensures r.Missing? ==> Decisive(r)
    ensures r.Broken? ==> !Decisive(r)
    ensures r.Read? ==> (Decisive(r) <==> Verdict(r) != S.Live && Verdict(r) != S.Unknown)
    ensures r.Read? && Decisive(r) ==> Verdict(r) == Meaning(r)
    ensures r.Read? ==> (Unclear(r) <==> Verdict(r) == S.Unknown)
  {
    if r.Read? {
      hide S.Dispose, S.Normalize, S.AtWork, S.Done, S.Waits, S.Stuck, S.Unclear;
      S.DisposesExactly(r.status, r.detail, r.output);
    }
  }

  /** How the loop ends in round `k`, if it does. */
  function EndAt(k: nat, cancelled: nat -> bool, clock: nat -> int, deadline: int, readings: nat -> Reading): Option<PollEnd> {
    if cancelled(k) then Some(CancelSeen)
    else if clock(k) >= deadline then Some(DeadlineReached)
    else if readings(k).Missing? then Some(SessionMissing)
    else if Decisive(readings(k)) then Some(SettledAs(Meaning(readings(k))))
    else None
  }

  /** What one round of the loop makes of its row. */
  function Polled(a: Attempt, r: Reading): Attempt {
    match r
    case Missing => a
    case Broken => a.(status := Reconciling, reason := OtherReason)
    case Read(_, _, _) =>
      if Unclear(r) then a.(status := Reconciling, reason := OtherReason) else a.(status := Running, reason := NoReason)
  }

  lemma LastGetDecides(a: Attempt, former: Reading, r: Reading)
    requires !r.Missing?
    ensures Polled(Polled(a, former), r) == Polled(a, r)
  {
    hide Unclear;
  }

  /** What the loop leaves of its row: the last GET decides, and then a cancel that was seen. */
  function AfterPolling(a: Attempt, rounds: nat, end: PollEnd, readings: nat -> Reading): Attempt {
    var last := if rounds == 0 then a else Polled(a, readings(rounds - 1));
    match end
    case CancelSeen => last.(status := TerminationPending, reason := Reason.CancelRequested)
    case SettledAs(_) => Polled(a, readings(rounds))
    case _ => last
  }

  function CeilDiv(a: int, b: int): (r: int)
    requires b > 0
    ensures b * (r - 1) < a <= b * r
  {
    (a + b - 1) / b
  }

  /** Every sleep moves the clock by at least the interval. */
  ghost predicate Ticks(clock: nat -> int, interval: int) { forall k: nat :: clock(k + 1) >= clock(k) + interval }

  lemma {:induction false} ClockAfter(clock: nat -> int, interval: int, k: nat)
    requires Ticks(clock, interval)
    ensures clock(k) >= clock(0) + k * interval
  {
    if k > 0 {
      ClockAfter(clock, interval, k - 1);
      assert clock(k - 1 + 1) >= clock(k - 1) + interval;
    }
  }

  /** A round that is not the last one starts before the deadline. */
  lemma RoundsAreBounded(clock: nat -> int, interval: int, deadline: int, n: nat)
    requires Ticks(clock, interval) && interval > 0
    requires n == 0 || clock(n - 1) < deadline
    ensures clock(0) < deadline ==> n <= CeilDiv(deadline - clock(0), interval)
    ensures clock(0) >= deadline ==> n == 0
  {
    ClockAfter(clock, interval, n);
    if n > 0 {
      ClockAfter(clock, interval, n - 1);
      var d := CeilDiv(deadline - clock(0), interval);
      if clock(0) >= deadline { Scaled(n - 1, interval); }
      else if n > d { Order(d, n - 1, interval); }
    }
  }

  lemma Scaled(a: nat, b: int)
    requires b > 0
    ensures a * b >= 0
  {}

  lemma Order(a: int, b: int, c: int)
    requires a <= b && c > 0
    ensures c * a <= b * c
  {}

  class Runner {
    var attempts: seq<Attempt>
    var remote: map<nat, Session>
    /** Calls of `get_session` so far. */
    var gets: nat

    constructor (attempts: seq<Attempt>, remote: map<nat, Session>)
      ensures this.attempts == attempts && this.remote == remote && gets == 0
    {
      this.attempts, this.remote, gets := attempts, remote, 0;
    }

    /** `_poll`, up to and including the GET that a timeout or cancel makes: it ends in the first
        round that has a reason to, with one GET a round, and never later than the deadline. */
    method Poll(i: nat, cancelled: nat -> bool, clock: nat -> int, deadline: int, interval: int, readings: nat -> Reading)
      returns (end: PollEnd, ghost rounds: nat)
      requires i < |attempts| && interval > 0 && Ticks(clock, interval)
      modifies this`attempts, this`gets
      ensures Some(end) == EndAt(rounds, cancelled, clock, deadline, readings)
      ensures forall k: nat | k < rounds :: EndAt(k, cancelled, clock, deadline, readings).None?
      ensures gets == old(gets) + rounds + 1
      ensures clock(0) < deadline ==> gets - old(gets) <= CeilDiv(deadline - clock(0), interval) + 1
      ensures clock(0) >= deadline ==> gets - old(gets) == 1
      ensures attempts == old(attempts)[i := AfterPolling(old(attempts)[i], rounds, end, readings)]
    {
      hide Decisive, Meaning, Verdict, Unclear, Polled, CeilDiv;
      ghost var before := attempts;
      var k := 0;
      rounds := 0;
      while true
        invariant rounds == k && (k == 0 || clock(k - 1) < deadline)
        invariant forall m: nat | m < k :: EndAt(m, cancelled, clock, deadline, readings).None?
        invariant gets == old(gets) + k
        invariant attempts == before[i := if k == 0 then before[i] else Polled(before[i], readings(k - 1))]
        decreases deadline - clock(k)
      {
        RoundsAreBounded(clock, interval, deadline, k);
        assert clock(k + 1) >= clock(k) + interval;
        if cancelled(k) {
          attempts := attempts[i := attempts[i].(status := TerminationPending, reason := Reason.CancelRequested)];
          gets := gets + 1;
          return CancelSeen, k;
        }
        if clock(k) >= deadline {
          gets := gets + 1;
          return DeadlineReached, k;
        }
        var reading := readings(k);
        gets := gets + 1;
        VerdictMeans(reading);
        if reading.Missing? {
          return SessionMissing, k;
        }
        PollRow(i, reading);
        if k > 0 { LastGetDecides(before[i], readings(k - 1), reading); }
        if reading.Read? && Verdict(reading) != S.Unknown && Verdict(reading) != S.Live {
          return SettledAs(Verdict(reading)), k;
        }
        k := k + 1;
        rounds := k;
      }
    }

    /** The row after a GET that found the session, or found out nothing. */
    method PollRow(i: nat, reading: Reading)
      requires i < |attempts| && !reading.Missing?
      modifies this`attempts
      ensures attempts == old(attempts)[i := Polled(old(attempts)[i], reading)]
    {
      hide Verdict, Unclear;
      VerdictMeans(reading);
      if reading.Broken? || Verdict(reading) == S.Unknown {
        attempts := attempts[i := attempts[i].(status := Reconciling, reason := OtherReason)];
      } else {
        attempts := attempts[i := attempts[i].(status := Running, reason := NoReason)];
      }
    }

    /** The retry loop of `_reconcile_create`: the first search that finds anything ends it. */
    method SearchByTag(maxAttempts: nat, searches: nat -> Option<set<nat>>) returns (matches: set<nat>, calls: nat)
      ensures 1 <= calls <= (if maxAttempts > 1 then maxAttempts else 1)
      ensures matches != {} ==> searches(calls - 1) == Some(matches)
      ensures matches == {} ==> calls == (if maxAttempts > 1 then maxAttempts else 1)
      ensures forall k: nat | k < calls && (matches != {} ==> k < calls - 1) :: searches(k) in {None, Some({})}
    {
      matches, calls := {}, 0;
      var limit := if maxAttempts > 1 then maxAttempts else 1;
      while calls < limit
        invariant 0 <= calls <= limit && matches == {}
        invariant forall k: nat | k < calls :: searches(k) in {None, Some({})}
      {
        var found := searches(calls);
        calls := calls + 1;
        if found.Some? {
          matches := found.value;
          if matches != {} {
            return;
          }
        }
      }
    }

    /** `terminate_session` of a session the row names. */
    method Terminate(sid: nat, answer: DeleteAnswer)
      modifies this`remote
      ensures remote == if answer.Deleted? then Delete(old(remote), {sid}) else old(remote)
    {
      if answer.Deleted? {
        remote := Delete(remote, {sid});
      }
    }

    /** `_settle_previous_sessions`: it refuses exactly if some earlier attempt may not be replaced;
        otherwise every one that names a session is cancelled. Refused or not, it cancels only what
        may be replaced, and of the sessions exactly those change that it has read without output
        and then deleted, their attempts cancelled with them. */
    method SettlePrevious(kind: Kind, got: nat -> GetAnswer, deleted: nat -> DeleteAnswer) returns (refused: bool)
      modifies this`attempts, this`remote
      ensures |attempts| == |old(attempts)| && remote.Keys == old(remote).Keys
      ensures refused <==> exists i | 0 <= i < |attempts| ::
                Unsettled(old(attempts)[i], kind) && !Replaceable(old(attempts)[i], got(i), deleted(i))
      ensures !refused ==> forall i | 0 <= i < |attempts| ::
                attempts[i] == if Unsettled(old(attempts)[i], kind) then AfterSettling(old(attempts)[i]) else old(attempts)[i]
      ensures forall i | 0 <= i < |attempts| && attempts[i] != old(attempts)[i] ::
                && Unsettled(old(attempts)[i], kind) && Replaceable(old(attempts)[i], got(i), deleted(i))
                && attempts[i] == AfterSettling(old(attempts)[i])
      ensures forall sid <- remote :: remote[sid] ==
                if exists i | 0 <= i < |attempts| ::
                     attempts[i] != old(attempts)[i] && ReadAndDeleted(old(attempts)[i], got(i), deleted(i), sid)
                then old(remote)[sid].(phase := Gone) else old(remote)[sid]
    {
      hide Replaceable, ReadAndDeleted, AfterSettling, Unsettled;
      var previous := Select(attempts, a => Unsettled(a, kind), |attempts|);
      assert forall m | 0 <= m < |previous| :: previous[m] in previous;
      ghost var before, n := attempts, 0;
      refused, n := SettleAll(previous, got, deleted);
      forall m: nat, sid | m < n && ReadAndDeleted(before[previous[m]], got(previous[m]), deleted(previous[m]), sid)
        ensures attempts[previous[m]] != before[previous[m]]
      {
        DeletedIsCancelled(before[previous[m]], kind, got(previous[m]), deleted(previous[m]), sid);
      }
    }

    /** The loop over the earlier attempts: it settles the first `n`, and refuses the next one if
        there is one. */
    method SettleAll(previous: seq<nat>, got: nat -> GetAnswer, deleted: nat -> DeleteAnswer)
      returns (refused: bool, ghost n: nat)
      requires forall m | 0 <= m < |previous| :: previous[m] < |attempts|
      requires forall j, k | 0 <= j < k < |previous| :: previous[k] < previous[j]
      modifies this`attempts, this`remote
      ensures n <= |previous| && (refused <==> n < |previous|)
      ensures forall m: nat | m < n :: Replaceable(old(attempts)[previous[m]], got(previous[m]), deleted(previous[m]))
      ensures refused ==> !Replaceable(old(attempts)[previous[n]], got(previous[n]), deleted(previous[n]))
      ensures |attempts| == |old(attempts)|
      ensures forall m: nat | m < n :: attempts[previous[m]] == AfterSettling(old(attempts)[previous[m]])
      ensures forall i | 0 <= i < |attempts| && i !in previous[..n] :: attempts[i] == old(attempts)[i]
      ensures remote.Keys == old(remote).Keys
      ensures forall sid <- remote :: remote[sid] ==
                if exists m: nat | m < n ::
                     ReadAndDeleted(old(attempts)[previous[m]], got(previous[m]), deleted(previous[m]), sid)
                then old(remote)[sid].(phase := Gone) else old(remote)[sid]
    {
      hide Replaceable, ReadAndDeleted, AfterSettling;
      ghost var before := attempts;
      var k := 0;
      while k < |previous|
        invariant 0 <= k <= |previous| && |attempts| == |before| && remote.Keys == old(remote).Keys
        invariant forall m: nat | m < k :: Replaceable(before[previous[m]], got(previous[m]), deleted(previous[m]))
        invariant forall m: nat | m < k :: attempts[previous[m]] == AfterSettling(before[previous[m]])
        invariant forall i | 0 <= i < |attempts| && i !in previous[..k] :: attempts[i] == before[i]
        invariant forall sid <- remote :: remote[sid] ==
                    if exists m: nat | m < k :: ReadAndDeleted(before[previous[m]], got(previous[m]), deleted(previous[m]), sid)
                    then old(remote)[sid].(phase := Gone) else old(remote)[sid]
      {
        var i := previous[k];
        assert previous[..k + 1] == previous[..k] + [i];
        refused := SettleRow(i, got(i), deleted(i));
        if refused {
          return true, k;
        }
        k := k + 1;
      }
      return false, k;
    }

    /** One attempt of the loop. */
    method SettleRow(i: nat, got: GetAnswer, deleted: DeleteAnswer) returns (refused: bool)
      requires i < |attempts|
      modifies this`attempts, this`remote
      ensures refused <==> !Replaceable(old(attempts)[i], got, deleted)
      ensures attempts == if refused then old(attempts) else old(attempts)[i := AfterSettling(old(attempts)[i])]
      ensures remote.Keys == old(remote).Keys
      ensures forall sid <- remote :: remote[sid] ==
                if ReadAndDeleted(old(attempts)[i], got, deleted, sid) then old(remote)[sid].(phase := Gone) else old(remote)[sid]
      ensures refused ==> remote == old(remote)
    {
      var a := attempts[i];
      if a.createState == Unresolved {
        if a.reason != Acknowledged {
          return true;
        }
        attempts := attempts[i := Closed(a, Cancelled)];
      } else if a.session.Some? {
        match got {
          case GetError =>
            return true;
          case GetNotFound =>
          case Snapshot(_, _, output, _) =>
            if output {
              return true;
            }
            Terminate(a.session.value, deleted);
            if deleted.DeleteError? {
              return true;
            }
        }
        attempts := attempts[i := Closed(a, Cancelled)];
      }
      return false;
    }

    /** `terminate_running_attempts`: it reports success exactly if no row owns a session any more, a
        row is let go of exactly if the end of its session was confirmed, and of the sessions exactly
        those change that an owning row names, or a search for its tag found, and whose DELETE was
        accepted. */
    method TerminateRunning(deleted: nat -> DeleteAnswer, swept: nat -> SweepAnswer) returns (confirmed: bool)
      modifies this`attempts, this`remote
      ensures |attempts| == |old(attempts)|
      ensures forall i | 0 <= i < |attempts| :: attempts[i] == AfterTermination(old(attempts)[i], deleted(i), swept(i))
      ensures confirmed <==> forall i | 0 <= i < |attempts| :: !Owning(attempts[i])
      ensures remote.Keys == old(remote).Keys
      ensures forall sid <- remote :: remote[sid] ==
                if exists i | 0 <= i < |attempts| :: Terminates(old(attempts)[i], deleted(i), swept(i), sid)
                then old(remote)[sid].(phase := Gone) else old(remote)[sid]
    {
      hide AfterTermination, Owning, Terminates;
      confirmed := true;
      var n := 0;
      while n < |attempts|
        invariant 0 <= n <= |attempts| == |old(attempts)|
        invariant forall i | n <= i < |attempts| :: attempts[i] == old(attempts)[i]
        invariant forall i | 0 <= i < n :: attempts[i] == AfterTermination(old(attempts)[i], deleted(i), swept(i))
        invariant confirmed <==> forall i | 0 <= i < n :: !Owning(attempts[i])
        invariant remote.Keys == old(remote).Keys
        invariant forall sid <- remote :: remote[sid] ==
                    if exists i | 0 <= i < n :: Terminates(old(attempts)[i], deleted(i), swept(i), sid)
                    then old(remote)[sid].(phase := Gone) else old(remote)[sid]
      {
        var ended := TerminateRow(n, deleted(n), swept(n));
        confirmed := confirmed && ended;
        n := n + 1;
      }
    }

    /** One row of the loop. */
    method TerminateRow(n: nat, deleted: DeleteAnswer, swept: SweepAnswer) returns (ended: bool)
      requires n < |attempts|
      modifies this`attempts, this`remote
      ensures attempts == old(attempts)[n := AfterTermination(old(attempts)[n], deleted, swept)]
      ensures ended <==> !Owning(attempts[n])
      ensures remote.Keys == old(remote).Keys
      ensures forall sid <- remote :: remote[sid] ==
                if Terminates(old(attempts)[n], deleted, swept, sid) then old(remote)[sid].(phase := Gone) else old(remote)[sid]
    {
      ended := true;
      var a := attempts[n];
      if Owning(a) {
        if a.session.Some? {
          ended := !deleted.DeleteError?;
          Terminate(a.session.value, deleted);
        } else if a.sent {
          ended := swept.Swept?;
          remote := Delete(remote, SweptAway(swept));
        }
        attempts := attempts[n := if ended then TerminationConfirmed(a) else CancelParked(a)];
      }
    }

    /** `reconcile_blocked` up to its transition: re-read every retained session, newest first, and
        keep one attempt. */
    method ReconcileBlocked(got: nat -> GetAnswer) returns (kept: Option<nat>)
      modifies this`attempts, this`gets
      ensures |attempts| == |old(attempts)|
      ensures kept.None? <==> forall i | 0 <= i < |attempts| && Retained(old(attempts)[i]) :: !HasOutput(got(i))
      ensures kept.Some? ==> kept.value < |attempts| && Retained(old(attempts)[kept.value]) && BestOutput(old(attempts), got, kept.value)
      ensures kept.Some? ==> Kept(old(attempts), attempts, kept.value)
      ensures kept.None? ==> forall i | 0 <= i < |attempts| && Retained(old(attempts)[i]) ::
                attempts[i].status == Blocked && attempts[i] == Annotated(old(attempts)[i], got(i))
      ensures kept.Some? ==> forall i | 0 <= i < |attempts| && Retained(old(attempts)[i]) && i != kept.value ::
                attempts[i] == Superseded(Annotated(old(attempts)[i], got(i)))
      ensures forall i | 0 <= i < |attempts| && !Retained(old(attempts)[i]) :: attempts[i] == old(attempts)[i]
      ensures gets == old(gets) + |RetainedRows(old(attempts))|
    {
      hide FoundSoFar, ReadReason, HasOutput, Chosen, BestOutput;
      ghost var before := attempts;
      var candidates := RetainedRows(attempts);
      assert forall m | 0 <= m < |candidates| :: candidates[m] in candidates;
      var found := ReadAll(candidates, got);
      if found == [] {
        NothingFound(candidates, got);
        RetainedStay(before);
        return None;
      }
      var i := Chosen(found);
      ChosenIsBest(before, candidates, got, found);
      Keep(candidates, i);
      assert forall j | 0 <= j < |before| && Retained(before[j]) :: j in candidates;
      return Some(i);
    }

    /** The loop over the retained sessions. */
    method ReadAll(candidates: seq<nat>, got: nat -> GetAnswer) returns (found: seq<(nat, bool)>)
      requires forall m | 0 <= m < |candidates| :: candidates[m] < |attempts|
      requires forall j, k | 0 <= j < k < |candidates| :: candidates[k] < candidates[j]
      modifies this`attempts, this`gets
      ensures |attempts| == |old(attempts)| && gets == old(gets) + |candidates|
      ensures forall i | 0 <= i < |attempts| :: i !in candidates ==> attempts[i] == old(attempts)[i]
      ensures forall i <- candidates :: attempts[i] == Annotated(old(attempts)[i], got(i))
      ensures FoundSoFar(candidates, got, |candidates|, found)
    {
      hide FoundSoFar, Annotated, Collected;
      ghost var before := attempts;
      assert forall m | 0 <= m < |candidates| :: candidates[m] in candidates;
      StartFound(candidates, got);
      found := [];
      var n := 0;
      ghost var seen: set<nat> := {};
      while n < |candidates|
        invariant 0 <= n <= |candidates| && |attempts| == |before| && gets == old(gets) + n
        invariant forall m | 0 <= m < |candidates| :: candidates[m] in seen <==> m < n
        invariant forall i | 0 <= i < |attempts| :: i !in seen ==> attempts[i] == before[i]
        invariant forall i <- seen :: i in candidates && attempts[i] == Annotated(before[i], got(i))
        invariant FoundSoFar(candidates, got, n, found)
      {
        var i := candidates[n];
        FoundNext(candidates, got, n, found);
        RereadRow(i, got(i));
        found := Collected(found, i, got(i));
        seen := seen + {i};
        n := n + 1;
      }
      forall i <- candidates ensures i in seen {
        var m :| 0 <= m < |candidates| && candidates[m] == i;
      }
    }

    /** One GET of the loop: an attempt without output is annotated, which permits a replacement. */
    method RereadRow(i: nat, got: GetAnswer)
      requires i < |attempts|
      modifies this`attempts, this`gets
      ensures attempts == old(attempts)[i := Annotated(old(attempts)[i], got)]
      ensures gets == old(gets) + 1
    {
      gets := gets + 1;
      match got {
        case GetError =>
          attempts := attempts[i := attempts[i].(reason := OtherReason)];
        case GetNotFound =>
          attempts := attempts[i := attempts[i].(reason := NoOutput(true))];
        case Snapshot(_, _, output, _) =>
          if !output {
            attempts := attempts[i := attempts[i].(reason := NoOutput(false))];
          }
      }
    }

    /** The kept attempt runs again, the other candidates are superseded. */
    method Keep(candidates: seq<nat>, i: nat)
      requires i < |attempts|
      modifies this`attempts
      ensures |attempts| == |old(attempts)|
      ensures attempts[i] == old(attempts)[i].(status := Running, reason := NoReason)
      ensures forall j | 0 <= j < |attempts| && j != i ::
                attempts[j] == if j in candidates then Superseded(old(attempts)[j]) else old(attempts)[j]
    {
      var others := set j <- candidates | j != i;
      attempts := Rewrite(attempts, others, Superseded);
      attempts := attempts[i := attempts[i].(status := Running, reason := NoReason)];
    }
  }

  // ------------------------------------------------------------------ what the loops are proved against

  /** The attempt names a session, or an unresolved create that may have made one. */
  predicate Names(a: Attempt) { a.createState == Unresolved || a.session.Some? }

  /** A replacement of the attempt is allowed: acknowledged, gone, or read without output and deleted. */
  predicate Replaceable(a: Attempt, got: GetAnswer, deleted: DeleteAnswer) {
    if a.createState == Unresolved then a.reason == Acknowledged
    else
      a.session.Some? ==> got.GetNotFound? || (got.Snapshot? && !got.output && !deleted.DeleteError?)
  }

  /** The session was read without output, and its DELETE accepted. */
  predicate ReadAndDeleted(a: Attempt, got: GetAnswer, deleted: DeleteAnswer, sid: nat) {
    a.createState != Unresolved && a.session == Some(sid) && got.Snapshot? && !got.output && deleted.Deleted?
  }

  lemma DeletedIsCancelled(a: Attempt, kind: Kind, got: GetAnswer, deleted: DeleteAnswer, sid: nat)
    requires Unsettled(a, kind) && ReadAndDeleted(a, got, deleted, sid)
    ensures AfterSettling(a) != a
  {}

  function AfterSettling(a: Attempt): Attempt { if Names(a) then Closed(a, Cancelled) else a }

  predicate EndConfirmed(a: Attempt, deleted: DeleteAnswer, swept: SweepAnswer) {
    if a.session.Some? then !deleted.DeleteError? else a.sent ==> swept.Swept?
  }

  /** A row that owns a session is closed if its end was confirmed, and else parked. */
  function AfterTermination(a: Attempt, deleted: DeleteAnswer, swept: SweepAnswer): Attempt {
    if !Owning(a) then a
    else if EndConfirmed(a, deleted, swept) then TerminationConfirmed(a)
    else CancelParked(a)
  }

  /** The sessions that a search for the tag found and that were then deleted. */
  function SweptAway(swept: SweepAnswer): set<nat> { if swept.Swept? then swept.matches else swept.deleted }

  /** Ending the row ends this session: the row owns one, and the DELETE of the session it names, or
      of one found by its tag, was accepted. */
  predicate Terminates(a: Attempt, deleted: DeleteAnswer, swept: SweepAnswer, sid: nat) {
    Owning(a) && AcceptedFor(a, deleted, swept, sid)
  }

  predicate AcceptedFor(a: Attempt, deleted: DeleteAnswer, swept: SweepAnswer, sid: nat) {
    if a.session.Some? then a.session.value == sid && deleted.Deleted? else a.sent && sid in SweptAway(swept)
  }

  predicate HasOutput(got: GetAnswer) { got.Snapshot? && got.output }

  function ReadReason(a: Attempt, got: GetAnswer): Reason {
    match got
    case GetError => OtherReason
    case GetNotFound => NoOutput(true)
    case Snapshot(_, _, output, _) => if output then a.reason else NoOutput(false)
  }

  /** The attempt as reading its session leaves it. */
  function Annotated(a: Attempt, got: GetAnswer): Attempt { a.(reason := ReadReason(a, got)) }

  /** Attempt `i` has output, valid unless none is, and no newer attempt has as good. */
  ghost predicate BestOutput(attempts: seq<Attempt>, got: nat -> GetAnswer, i: nat)
    requires i < |attempts|
  {
    && HasOutput(got(i))
    && (forall j | 0 <= j < |attempts| && Retained(attempts[j]) && HasOutput(got(j)) && got(j).valid :: got(i).valid)
    && (forall j | i < j < |attempts| && Retained(attempts[j]) && HasOutput(got(j)) :: got(i).valid && !got(j).valid)
  }

  ghost predicate FoundSoFar(candidates: seq<nat>, got: nat -> GetAnswer, n: nat, found: seq<(nat, bool)>)
    requires n <= |candidates|
  {
    && (forall e <- found :: e.0 in candidates && HasOutput(got(e.0)) && got(e.0).valid == e.1)
    && (forall m | 0 <= m < n && HasOutput(got(candidates[m])) :: (candidates[m], got(candidates[m]).valid) in found)
    && (forall j, k | 0 <= j < k < |found| :: found[k].0 < found[j].0)
    && (forall e <- found, m | n <= m < |candidates| :: candidates[m] < e.0)
  }

  /** The list of readings with output, newest first. */
  function Collected(found: seq<(nat, bool)>, i: nat, got: GetAnswer): seq<(nat, bool)> {
    match got
    case Snapshot(_, _, output, valid) => if output then found + [(i, valid)] else found
    case _ => found
  }

  lemma StartFound(candidates: seq<nat>, got: nat -> GetAnswer)
    ensures FoundSoFar(candidates, got, 0, [])
  {}

  /** One more candidate was read. */
  lemma FoundNext(candidates: seq<nat>, got: nat -> GetAnswer, n: nat, found: seq<(nat, bool)>)
    requires n < |candidates| && FoundSoFar(candidates, got, n, found)
    requires forall j, k | 0 <= j < k < |candidates| :: candidates[k] < candidates[j]
    ensures FoundSoFar(candidates, got, n + 1, Collected(found, candidates[n], got(candidates[n])))
  {
    var i := candidates[n];
    var more := Collected(found, i, got(i));
    if more != found {
      assert more == found + [(i, got(i).valid)];
      hide Collected, HasOutput;
      FoundSorted(found, (i, got(i).valid));
      forall m | 0 <= m < n + 1 && HasOutput(got(candidates[m])) ensures (candidates[m], got(candidates[m]).valid) in more {
        if m < n { assert (candidates[m], got(candidates[m]).valid) in found; }
        else { assert more[|found|] == (i, got(i).valid); }
      }
    }
  }

  lemma FoundSorted(found: seq<(nat, bool)>, e: (nat, bool))
    requires forall j, k | 0 <= j < k < |found| :: found[k].0 < found[j].0
    requires forall f <- found :: e.0 < f.0
    ensures forall j, k | 0 <= j < k < |found + [e]| :: (found + [e])[k].0 < (found + [e])[j].0
  {
    forall j | 0 <= j < |found| ensures e.0 < found[j].0 { assert found[j] in found; }
  }

  lemma NothingFound(candidates: seq<nat>, got: nat -> GetAnswer)
    requires FoundSoFar(candidates, got, |candidates|, [])
    ensures forall i <- candidates :: !HasOutput(got(i))
  {
    forall i <- candidates ensures !HasOutput(got(i)) {
      var m :| 0 <= m < |candidates| && candidates[m] == i;
    }
  }

  lemma RetainedStay(before: seq<Attempt>)
    ensures forall i | 0 <= i < |before| && Retained(before[i]) :: before[i].status == Blocked
  {}

  predicate SomeValid(found: seq<(nat, bool)>) { exists e <- found :: e.1 }

  /** Entry `k` is the newest valid one, or the newest one when none is valid. */
  ghost predicate Best(found: seq<(nat, bool)>, k: nat)
    requires k < |found|
  {
    if SomeValid(found) then found[k].1 && forall j | 0 <= j < k :: !found[j].1 else k == 0
  }

  /** `next(valid ones, else the first)` of a list that is newest first. */
  lemma {:induction false} ChosenMeans(found: seq<(nat, bool)>) returns (k: nat)
    requires found != []
    ensures k < |found| && found[k].0 == Chosen(found) && Best(found, k)
  {
    var tail := found[1..];
    assert found == [found[0]] + tail;
    if found[0].1 {
      k := 0;
      assert found[0] in found;
    } else if SomeValid(tail) {
      var m := ChosenMeans(tail);
      k := m + 1;
      assert SomeValid(found) by {
        var e :| e in tail && e.1;
        assert e in found;
      }
      forall j | 0 <= j < k ensures !found[j].1 {
        if j > 0 { assert found[j] == tail[j - 1]; }
      }
    } else {
      k := 0;
      forall e <- found ensures !e.1 {
        if e != found[0] { assert e in tail; }
      }
    }
  }

  lemma ChosenIsBest(attempts: seq<Attempt>, candidates: seq<nat>, got: nat -> GetAnswer, found: seq<(nat, bool)>)
    requires found != [] && FoundSoFar(candidates, got, |candidates|, found)
    requires forall i :: i in candidates <==> 0 <= i < |attempts| && Retained(attempts[i])
    ensures Chosen(found) in candidates && BestOutput(attempts, got, Chosen(found)) && HasOutput(got(Chosen(found)))
  {
    hide Chosen;
    var k := ChosenMeans(found);
    var i := Chosen(found);
    assert found[k] in found;
    forall j | 0 <= j < |attempts| && Retained(attempts[j]) && HasOutput(got(j))
      ensures got(j).valid ==> got(i).valid
      ensures j > i ==> got(i).valid && !got(j).valid
    {
      assert j in candidates;
      var m :| 0 <= m < |candidates| && candidates[m] == j;
      assert (j, got(j).valid) in found;
      var l :| 0 <= l < |found| && found[l] == (j, got(j).valid);
      if l < k { assert found[k].0 < found[l].0; } else if k < l { assert found[l].0 < found[k].0; }
    }
  }

  // ------------------------------------------------------------------ the current triage result

  /** `latest_triage_attempt_id`: the newest triage attempt that was not cancelled. */
  function LatestTriage(attempts: seq<Attempt>, n: nat): (r: Option<nat>)
    requires n <= |attempts|
    ensures r.Some? ==> r.value < n && attempts[r.value].kind == Triage && attempts[r.value].status != Cancelled
    ensures r.Some? ==> forall i | r.value < i < n :: attempts[i].kind == Triage ==> attempts[i].status == Cancelled
    ensures r.None? ==> forall i | 0 <= i < n :: attempts[i].kind == Triage ==> attempts[i].status == Cancelled
  {
    if n == 0 then None
    else if attempts[n - 1].kind == Triage && attempts[n - 1].status != Cancelled then Some(n - 1)
    else LatestTriage(attempts, n - 1)
  }

  /** What `ReconcileBlocked` leaves when it keeps attempt `i`. */
  ghost predicate Kept(before: seq<Attempt>, after: seq<Attempt>, i: nat) {
    && |after| == |before| && i < |before| && Retained(before[i])
    && after[i] == before[i].(status := Running, reason := NoReason)
    && (forall j | 0 <= j < |before| && Retained(before[j]) && j != i :: after[j].status == Cancelled)
    && (forall j | 0 <= j < |before| && !Retained(before[j]) :: after[j] == before[j])
  }

  /** The kept attempt is the case's current triage result exactly if no newer triage attempt, apart
      from the candidates, is still uncancelled. */
  lemma KeptIsCurrent(before: seq<Attempt>, after: seq<Attempt>, i: nat)
    requires Kept(before, after, i)
    ensures LatestTriage(after, |after|) == Some(i) <==>
            forall j | i < j < |before| && before[j].kind == Triage && !Retained(before[j]) :: before[j].status == Cancelled
  {
    var latest := LatestTriage(after, |after|);
    assert latest.Some? && latest.value >= i;
    if latest.value > i { assert !Retained(before[latest.value]) && after[latest.value] == before[latest.value]; }
    forall j | i < j < |before| && before[j].kind == Triage && !Retained(before[j]) && latest == Some(i)
      ensures before[j].status == Cancelled
    {
      assert after[j] == before[j];
    }
  }

  // ------------------------------------------------------------------ the loops are the protocol's steps

  /** The answer of the remote that a reading comes from. */
  function AnswerOf(r: Reading): GetAnswer {
    match r
    case Broken => GetError
    case Missing => GetNotFound
    case Read(status, detail, output) =>
      var m := S.Dispose(status, detail, output);
      Snapshot(m.disposition, m.remoteTerminal, output, false)
  }

  /** A round of the polling loop is the protocol's step: the same row afterwards, and polling goes on
      exactly if the reading is not decisive. */
  lemma PollingIsAStep(s: World, w: nat, r: Reading)
    requires w in s.processes && s.processes[w].pc.PollGet? && KnowsSession(s, s.processes[w].pc.attempt, AnswerOf(r))
    ensures
      var i := s.processes[w].pc.attempt;
      var t := OnPollAnswer(s, w, AnswerOf(r));
      && t.attempts == s.attempts[i := Polled(s.attempts[i], r)]
      && w in t.processes && (t.processes[w].pc == Polling(i) <==> !Decisive(r))
      && (r.Missing? ==> t.processes[w].pc == SessionLost(i))
      && (r.Read? && Decisive(r) ==> t.processes[w].pc == Settled(i, Meaning(r), r.output))
  {
    hide S.Dispose, Decisive, Meaning, Unclear;
    VerdictMeans(r);
    assert s.attempts[s.processes[w].pc.attempt := s.attempts[s.processes[w].pc.attempt]] == s.attempts;
  }

  /** One attempt of the settling loop, with the DELETE its GET may lead to. */
  function SettledBoth(s: World, w: nat, got: GetAnswer, deleted: DeleteAnswer): World {
    var t := OnSettleStep(s, w, got);
    if w in t.processes && t.processes[w].pc.SettleDelete? then OnSettleDeleted(t, w, deleted) else t
  }

  /** One attempt of the settling loop is the protocol's step: the job ends exactly if the attempt may
      not be replaced; else the loop goes on, the attempt is to be cancelled exactly if it names a
      session. */
  lemma SettlingIsAStep(s: World, w: nat, got: GetAnswer, deleted: DeleteAnswer)
    requires w in s.processes && s.processes[w].pc.Settling? && s.processes[w].pc.todo != []
    requires
      var i := s.processes[w].pc.todo[0];
      && i < |s.attempts|
      && (s.attempts[i].session.Some? ==>
            TruthfulGet(s, s.attempts[i].session.value, got) && TruthfulDelete(s, s.attempts[i].session.value, deleted))
    ensures
      var Settling(kind, ordinal, todo, closed) := s.processes[w].pc;
      var a := s.attempts[todo[0]];
      var t := SettledBoth(s, w, got, deleted);
      if Replaceable(a, got, deleted) then
        && w in t.processes && t.attempts == s.attempts
        && t.processes[w].pc == Settling(kind, ordinal, todo[1..], if Names(a) then closed + {todo[0]} else closed)
      else w !in t.processes || t.processes[w].pc == Abandoning
  {
    hide FailJob;
    var Settling(kind, ordinal, todo, closed) := s.processes[w].pc;
    var a := s.attempts[todo[0]];
    if a.createState != Unresolved && a.session.Some? && got.Snapshot? && !got.output {
      var m := OnSettleStep(s, w, got);
      assert m == Goto(s, w, SettleDelete(kind, ordinal, todo, closed));
      assert m.processes[w].pc == SettleDelete(kind, ordinal, todo, closed) && m.attempts == s.attempts && m.sessions == s.sessions;
    }
  }

  /** Refused or not, of the sessions exactly the one changes that was read without output and whose
      DELETE was accepted. */
  lemma SettlingDeletesOnly(s: World, w: nat, got: GetAnswer, deleted: DeleteAnswer, sid: nat)
    requires w in s.processes && s.processes[w].pc.Settling? && s.processes[w].pc.todo != []
    requires
      var i := s.processes[w].pc.todo[0];
      && i < |s.attempts|
      && (s.attempts[i].session.Some? ==>
            TruthfulGet(s, s.attempts[i].session.value, got) && TruthfulDelete(s, s.attempts[i].session.value, deleted))
    ensures
      var a := s.attempts[s.processes[w].pc.todo[0]];
      var t := SettledBoth(s, w, got, deleted);
      && t.sessions.Keys == s.sessions.Keys
      && (sid in s.sessions ==>
            t.sessions[sid] == if ReadAndDeleted(a, got, deleted, sid) then s.sessions[sid].(phase := Gone) else s.sessions[sid])
  {
    hide FailJob, CancelledRows;
    var Settling(kind, ordinal, todo, closed) := s.processes[w].pc;
    var a := s.attempts[todo[0]];
    if a.createState != Unresolved && a.session.Some? && got.Snapshot? && !got.output {
      var m := OnSettleStep(s, w, got);
      assert m == Goto(s, w, SettleDelete(kind, ordinal, todo, closed));
      assert m.processes[w].pc == SettleDelete(kind, ordinal, todo, closed) && m.attempts == s.attempts && m.sessions == s.sessions;
    }
  }

  /** The commit of the settling loop cancels exactly what the loop over the rows does. */
  lemma SettlingCommitsRows(s: World, w: nat, i: nat)
    requires w in s.processes && s.processes[w].pc.Settling? && s.processes[w].pc.todo == [] && i < |s.attempts|
    requires i in s.processes[w].pc.closed ==> Names(s.attempts[i])
    ensures |OnSettleCommit(s, w).attempts| == |s.attempts|
    ensures OnSettleCommit(s, w).attempts[i] ==
            if i in s.processes[w].pc.closed then AfterSettling(s.attempts[i]) else s.attempts[i]
  {}

  /** One row of the terminating loop is the protocol's step: it is closed exactly if its end is
      confirmed, and parked otherwise. */
  lemma TerminatingIsAStep(s: World, w: nat, deleted: DeleteAnswer, swept: SweepAnswer)
    requires w in s.processes && s.processes[w].pc.Terminating? && s.processes[w].pc.todo != []
    requires
      var i := s.processes[w].pc.todo[0];
      && i < |s.attempts|
      && (s.attempts[i].session.Some? ==> TruthfulDelete(s, s.attempts[i].session.value, deleted))
      && TruthfulSweep(s, s.attempts[i].key, swept)
    ensures
      var Terminating(todo, closed, parked) := s.processes[w].pc;
      var a := s.attempts[todo[0]];
      var t := OnTerminateOne(s, w, deleted, swept);
      && w in t.processes && t.attempts == s.attempts
      && t.processes[w].pc == (if EndConfirmed(a, deleted, swept) then Terminating(todo[1..], closed + {todo[0]}, parked)
                               else Terminating(todo[1..], closed, parked + {todo[0]}))
      && t.sessions.Keys == s.sessions.Keys
      && forall sid <- t.sessions :: t.sessions[sid] ==
           if AcceptedFor(a, deleted, swept, sid) then s.sessions[sid].(phase := Gone) else s.sessions[sid]
  {
    hide TruthfulSweep;
  }

  /** The commit leaves each row as the loop does; with every end confirmed it closes the case, and if
      that is not possible any more it is rolled back. */
  lemma TerminatingCommitsRows(s: World, w: nat, i: nat, deleted: DeleteAnswer, swept: SweepAnswer)
    requires w in s.processes && s.processes[w].pc.Terminating? && s.processes[w].pc.todo == [] && i < |s.attempts|
    requires
      var pc := s.processes[w].pc;
      && (i in pc.closed <==> Owning(s.attempts[i]) && EndConfirmed(s.attempts[i], deleted, swept))
      && (i in pc.parked <==> Owning(s.attempts[i]) && !EndConfirmed(s.attempts[i], deleted, swept))
    ensures
      var t := OnTerminateCommit(s, w);
      var parked := s.processes[w].pc.parked;
      var to := L.PhaseForState(s.processes[w].mem).cancelled;
      if parked == {} && !CanMove(s, w, to) then t == Lost(s, w)
      else
        && |t.attempts| == |s.attempts| && t.attempts[i] == AfterTermination(s.attempts[i], deleted, swept)
        && t.state == (if parked == {} then to else s.state) && w !in t.processes
  {
    hide L.Allowed, EndConfirmed, L.PhaseForState;
  }

  /** Re-reading one candidate is the protocol's step: the same note on the row, the same list. */
  lemma RereadingIsAStep(s: World, w: nat, got: GetAnswer)
    requires w in s.processes && s.processes[w].pc.Rereading? && s.processes[w].pc.todo != []
    requires KnowsSession(s, s.processes[w].pc.todo[0], got)
    ensures
      var Rereading(candidates, todo, found) := s.processes[w].pc;
      var t := OnReread(s, w, got);
      && t.attempts == s.attempts[todo[0] := Annotated(s.attempts[todo[0]], got)]
      && w in t.processes && t.processes[w].pc == Rereading(candidates, todo[1..], Collected(found, todo[0], got))
  {
    var i := s.processes[w].pc.todo[0];
    assert s.attempts[i := s.attempts[i]] == s.attempts;
  }

  /** The ingestion keeps the attempt that the loop chooses, supersedes the others and takes a blocked
      case back to its triage; if that is not possible any more it is rolled back. */
  lemma IngestionKeepsOne(s: World, w: nat)
    requires w in s.processes && s.processes[w].pc.Rereading? && s.processes[w].pc.todo == [] && s.processes[w].pc.found != []
    requires
      var pc := s.processes[w].pc;
      && (forall i :: i in pc.candidates <==> 0 <= i < |s.attempts| && Retained(s.attempts[i]))
      && forall e <- pc.found :: e.0 in pc.candidates
    ensures
      var t := OnIngest(s, w);
      var i := Chosen(s.processes[w].pc.found);
      var blocked := s.processes[w].mem == L.HumanBlocked;
      if blocked && !CanMove(s, w, L.Triaging) then t == Lost(s, w)
      else
        && Kept(s.attempts, t.attempts, i) && t.state == (if blocked then L.Triaging else s.state)
        && w in t.processes && t.processes[w].pc == Settled(i, S.Finished, true)
  {
    hide L.Allowed, Chosen, Retained;
    var pc := s.processes[w].pc;
    assert Chosen(pc.found) in pc.candidates;
  }
}

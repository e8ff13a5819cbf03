/** The case row: the compare-and-swap `transition` with its log, and the claim a worker holds. */
module CaseRow {
  import opened Wrappers
  import opened Lifecycle

  type Holder = string

  /** The columns of a case that transitions and claims touch. */
  datatype Row = Row(
    state: CaseState,
    version: nat,
    completedAt: Option<int>,
    claimedBy: Option<Holder>,
    leaseExpiresAt: Option<int>,
    log: seq<Move>)

  const NEW_ROW := Row(Received, 0, None, None, None, [])

  datatype Outcome = Moved | NotAllowed | LostRace

  /** One committed write to the row. `seen` is the state (or claim) the writer had in memory. */
  datatype Op =
    | Transition(seen: CaseState, to: CaseState, flagged: bool, now: int, expected: Option<Holder>)
    | Claim(holder: Holder, now: int, leaseSeconds: int)
    | EventClaim(holder: Holder, seenClaim: Option<Holder>, now: int, leaseSeconds: int)
    | Release(holder: Holder, backoff: Option<int>)
    | Heartbeat(holder: Holder, expires: int)

  /** Whether the compare-and-swap of a transition finds the row it expects. */
  predicate Swappable(row: Row, seen: CaseState, expected: Option<Holder>) {
    row.state == seen && (expected.Some? ==> row.claimedBy == expected)
  }

  function Apply(row: Row, op: Op): Row {
    match op
    case Transition(seen, to, flagged, now, expected) =>
      if Allowed(seen, to, flagged) && Swappable(row, seen, expected) then
        row.(state := to, version := row.version + 1,
             completedAt := if Terminal(to) then Some(now) else None,
             log := row.log + [Move(seen, to, flagged)])
      else row
    case Claim(holder, now, lease) =>
      if row.leaseExpiresAt.None? || row.leaseExpiresAt.value < now then
        row.(claimedBy := Some(holder), leaseExpiresAt := Some(now + lease))
      else row
    case EventClaim(holder, seenClaim, now, lease) =>
      if seenClaim.None? then row.(claimedBy := Some(holder), leaseExpiresAt := Some(now + lease)) else row
    case Release(holder, backoff) =>
      if row.claimedBy == Some(holder) then row.(claimedBy := None, leaseExpiresAt := backoff) else row
    case Heartbeat(holder, expires) =>
      if row.claimedBy == Some(holder) then row.(leaseExpiresAt := Some(expires)) else row
  }

  function Run(row: Row, ops: seq<Op>): Row {
    if ops == [] then row else Apply(Run(row, ops[..|ops| - 1]), ops[|ops| - 1])
  }

  /** The audit trail of a row: the log is a path of the table from RECEIVED to the current
      state, the version counts it, and completion is stamped exactly in terminal states. */
  ghost predicate WellKept(row: Row) {
    && IsPath(row.log)
    && row.state == Last(row.log)
    && row.version == |row.log|
    && (row.completedAt.Some? <==> Terminal(row.state))
  }

  lemma PathExtends(log: seq<Move>, m: Move)
    requires IsPath(log) && m.from == Last(log) && Allowed(m.from, m.to, m.flagged)
    ensures IsPath(log + [m]) && Last(log + [m]) == m.to
  {
    var longer := log + [m];
    forall i | 0 <= i < |longer|
      ensures longer[i].from == Last(longer[..i]) && Allowed(longer[i].from, longer[i].to, longer[i].flagged)
    {
      assert longer[..i] == log[..i];
      if i < |log| { assert log[i].from == Last(log[..i]); } else { assert log[..i] == log; }
    }
  }

  lemma ApplyKeepsHistory(row: Row, op: Op)
    requires WellKept(row)
    ensures WellKept(Apply(row, op))
    ensures row.log <= Apply(row, op).log
  {
    if op.Transition? && Allowed(op.seen, op.to, op.flagged) && Swappable(row, op.seen, op.expected) {
      PathExtends(row.log, Move(op.seen, op.to, op.flagged));
    }
  }

  /** Over any interleaving of workers and operators the audit trail is faithful. */
  lemma {:induction false} HistoryIsFaithful(ops: seq<Op>)
    ensures WellKept(Run(NEW_ROW, ops))
  {
    if ops != [] {
      HistoryIsFaithful(ops[..|ops| - 1]);
      ApplyKeepsHistory(Run(NEW_ROW, ops[..|ops| - 1]), ops[|ops| - 1]);
    }
  }

  /** Nobody but the holder: no foreign claim or fenced move by another worker. */
  predicate Foreign(op: Op, w: Holder) {
    match op
    case Claim(v, _, _) => v != w
    case Transition(_, _, _, _, expected) => expected.Some? && expected != Some(w)
    case Release(v, _) => v != w
    case Heartbeat(v, _) => v != w
    case EventClaim(_, seenClaim, _, _) => seenClaim.Some?
  }

  /** The op keeps `w` punctual up to time `until`: no claim is tried later than that, and
      `w` neither releases nor asks for a shorter lease. */
  predicate Punctual(op: Op, w: Holder, until: int) {
    match op
    case Claim(_, now, lease) => now <= until && 0 <= lease
    case EventClaim(v, seenClaim, now, lease) => v == w && seenClaim.None? ==> until <= now + lease
    case Release(v, _) => v != w
    case Heartbeat(v, expires) => v == w ==> until <= expires
    case Transition(_, _, _, _, _) => true
  }

  /** The job of another worker's event has read the case before it was claimed, and now writes its
      own claim without looking again. */
  predicate Steals(op: Op, w: Holder) { op.EventClaim? && op.seenClaim.None? && op.holder != w }

  /** While its lease reaches `until`, whatever the others try short of such a theft, the holder
      keeps the claim and every foreign claim, release, heartbeat and fenced transition leaves the
      row untouched. */
  lemma {:induction false} HolderIsUndisturbed(row: Row, ops: seq<Op>, w: Holder, until: int)
    requires row.claimedBy == Some(w) && row.leaseExpiresAt.Some? && until <= row.leaseExpiresAt.value
    requires forall op <- ops :: Punctual(op, w, until) && !Steals(op, w)
    ensures Run(row, ops).claimedBy == Some(w)
    ensures Run(row, ops).leaseExpiresAt.Some? && until <= Run(row, ops).leaseExpiresAt.value
    ensures forall i | 0 <= i < |ops| && Foreign(ops[i], w) ::
              Run(row, ops[..i + 1]) == Run(row, ops[..i])
  {
    if ops != [] {
      var front := ops[..|ops| - 1];
      HolderIsUndisturbed(row, front, w, until);
      assert ops[|ops| - 1] in ops;
      forall i | 0 <= i < |ops| && Foreign(ops[i], w)
        ensures Run(row, ops[..i + 1]) == Run(row, ops[..i])
      {
        if i < |front| {
          assert ops[..i + 1] == front[..i + 1] && ops[..i] == front[..i];
          assert Foreign(front[i], w);
        } else {
          assert ops[..i + 1] == ops && ops[..i] == front;
        }
      }
    }
  }

  /** A punctual holder keeps its claim throughout exactly if no stale event claim steals it. */
  lemma {:induction false} OnlyTheftDisturbs(row: Row, ops: seq<Op>, w: Holder, until: int)
    requires row.claimedBy == Some(w) && row.leaseExpiresAt.Some? && until <= row.leaseExpiresAt.value
    requires forall op <- ops :: Punctual(op, w, until)
    ensures (forall n | 0 <= n <= |ops| :: Run(row, ops[..n]).claimedBy == Some(w)) <==> forall op <- ops :: !Steals(op, w)
  {
    if ops != [] {
      var m := |ops| - 1;
      var front, last := ops[..m], ops[m];
      assert ops == front + [last] && ops[..m + 1] == ops;
      assert forall n | 0 <= n <= m :: front[..n] == ops[..n];
      OnlyTheftDisturbs(row, front, w, until);
      if forall op <- front :: !Steals(op, w) {
        HolderIsUndisturbed(row, front, w, until);
        assert last in ops && Punctual(last, w, until);
        assert Run(row, ops[..m + 1]).claimedBy == Some(w) <==> !Steals(last, w);
      } else {
        var n :| 0 <= n <= m && Run(row, front[..n]).claimedBy != Some(w);
        assert Run(row, ops[..n]).claimedBy != Some(w);
      }
    } else {
      assert ops[..0] == ops;
    }
  }

  /** The table row itself, updated in place. */
  class Case {
    var state: CaseState
    var version: nat
    var completedAt: Option<int>
    var claimedBy: Option<Holder>
    var leaseExpiresAt: Option<int>
    var log: seq<Move>

    ghost function View(): Row
      reads this
    {
      Row(state, version, completedAt, claimedBy, leaseExpiresAt, log)
    }

    constructor ()
      ensures View() == NEW_ROW
    {
      state, version, completedAt := Received, 0, None;
      claimedBy, leaseExpiresAt, log := None, None, [];
    }

    /** `transition`: the case moves exactly if the table has the edge from the state in memory, the
        row is still in that state, and the expected claim, if one is given, is still on it. */
    method TransitionTo(seen: CaseState, to: CaseState, flagged: bool, now: int, expected: Option<Holder>)
      returns (outcome: Outcome)
      modifies this
      ensures View() == Apply(old(View()), Transition(seen, to, flagged, now, expected))
      ensures outcome == NotAllowed <==> !Allowed(seen, to, flagged)
      ensures outcome == Moved <==>
                Allowed(seen, to, flagged) && old(state) == seen && (expected.None? || old(claimedBy) == expected)
      ensures outcome == Moved ==>
                && state == to && version == old(version) + 1 && log == old(log) + [Move(seen, to, flagged)]
                && completedAt == (if Terminal(to) then Some(now) else None)
                && claimedBy == old(claimedBy) && leaseExpiresAt == old(leaseExpiresAt)
      ensures outcome != Moved ==> View() == old(View())
      ensures old(WellKept(View())) ==> WellKept(View())
    {
      hide Edge, IsPath;
      ghost var before := View();
      if !Allowed(seen, to, flagged) {
        return NotAllowed;
      }
      if state != seen || (expected.Some? && claimedBy != expected) {
        return LostRace;
      }
      state := to;
      completedAt := if Terminal(to) then Some(now) else None;
      version := version + 1;
      log := log + [Move(seen, to, flagged)];
      outcome := Moved;
      if WellKept(before) {
        ApplyKeepsHistory(before, Transition(seen, to, flagged, now, expected));
      }
    }

    /** `_claim_case` on this row: only a free or lapsed lease is taken. */
    method TryClaim(holder: Holder, now: int, leaseSeconds: int) returns (claimed: bool)
      modifies this`claimedBy, this`leaseExpiresAt
      ensures View() == Apply(old(View()), Claim(holder, now, leaseSeconds))
      ensures claimed <==> old(leaseExpiresAt.None? || leaseExpiresAt.value < now)
      ensures claimed ==> claimedBy == Some(holder) && leaseExpiresAt == Some(now + leaseSeconds)
      ensures !claimed ==> View() == old(View())
    {
      claimed := leaseExpiresAt.None? || leaseExpiresAt.value < now;
      if claimed {
        claimedBy := Some(holder);
        leaseExpiresAt := Some(now + leaseSeconds);
      }
    }

    /** `_release_case`: a no-op for anyone but the current holder, whose claim is gone afterwards, and
        the case free to be claimed again after the backoff. */
    method ReleaseClaim(holder: Holder, backoff: Option<int>)
      modifies this`claimedBy, this`leaseExpiresAt
      ensures View() == Apply(old(View()), Release(holder, backoff))
      ensures old(claimedBy) != Some(holder) ==> View() == old(View())
      ensures old(claimedBy) == Some(holder) ==> claimedBy == None && leaseExpiresAt == backoff
    {
      if claimedBy == Some(holder) {
        claimedBy, leaseExpiresAt := None, backoff;
      }
    }

    /** The case half of `_heartbeat`; `kept` tells whether the lease was still ours. */
    method Beat(holder: Holder, expires: int) returns (kept: bool)
      modifies this`leaseExpiresAt
      ensures View() == Apply(old(View()), Heartbeat(holder, expires))
      ensures kept <==> claimedBy == Some(holder)
      ensures kept ==> leaseExpiresAt == Some(expires)
      ensures !kept ==> View() == old(View())
    {
      kept := claimedBy == Some(holder);
      if kept {
        leaseExpiresAt := Some(expires);
      }
    }
  }
}

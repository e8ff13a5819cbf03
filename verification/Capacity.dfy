/** The capacity ledger: a lease-based semaphore with expiry, idempotent renewal, a mutex per
    resource key and first-come admission. */
module Capacity {
  import opened Wrappers
  import T = Tags

  datatype Kind = Triage | Remediation | Probe | Resource

  function KindName(k: Kind): string {
    match k
    case Triage => "TRIAGE"
    case Remediation => "REMEDIATION"
    case Probe => "PROBE"
    case Resource => "RESOURCE"
  }

  datatype Limits = Limits(triage: nat, remediation: nat, probes: nat, leaseSeconds: nat) {
    /** Resource keys have no global limit; zero means unlimited. */
    function ForKind(k: Kind): nat {
      match k
      case Triage => triage
      case Remediation => remediation
      case Probe => probes
      case Resource => 0
    }
  }

  /** A lease row. `exempt` is not a column: it marks a lease granted by force, or revived by a
      heartbeat after it had lapsed, which the limits do not promise anything about. */
  datatype Lease = Lease(
    kind: Kind,
    scope: string,
    caseId: nat,
    attempt: Option<nat>,
    owner: string,
    expiresAt: int,
    releasedAt: Option<int>,
    exempt: bool)

  /** The columns of a case the ledger reads and writes. */
  datatype CaseInfo = CaseInfo(terminal: bool, waitingFor: Option<string>, waitingSince: Option<int>)

  datatype Ledger = Ledger(limits: Limits, leases: seq<Lease>, cases: map<nat, CaseInfo>, ended: set<nat>)

  predicate Unreleased(l: Lease) { l.releasedAt.None? }

  predicate Active(l: Lease, now: int) { Unreleased(l) && l.expiresAt > now }

  // ------------------------------------------------------------------ counting

  predicate Counts(l: Lease, kind: Kind, scope: Option<string>, now: int, strict: bool) {
    l.kind == kind && (scope.Some? ==> l.scope == scope.value) && Active(l, now) && !(strict && l.exempt)
  }

  /** How many leases are active; `strict` leaves the exempt ones out. */
  function Count(leases: seq<Lease>, kind: Kind, scope: Option<string>, now: int, strict: bool): nat {
    if leases == [] then 0
    else Count(leases[..|leases| - 1], kind, scope, now, strict) +
         (if Counts(leases[|leases| - 1], kind, scope, now, strict) then 1 else 0)
  }

  function InUse(leases: seq<Lease>, kind: Kind, scope: Option<string>, now: int): nat {
    Count(leases, kind, scope, now, false)
  }

  // ------------------------------------------------------------------ denials and the queue

  datatype Denial = Denial(kind: Kind, scope: string, limit: nat, inUse: nat, behind: nat)

  /** The text a parked case carries. */
  function Label(d: Denial): string {
    var base := KindName(d.kind) + (if d.scope == "" then "" else ":" + d.scope) +
                " (" + T.Decimal(d.inUse) + "/" + T.Decimal(d.limit) + ")";
    if d.behind > 0 then base + " behind " + T.Decimal(d.behind) else base
  }

  /** `LIKE 'KIND (%'`. */
  predicate WaitsGlobally(text: string, kind: Kind) { KindName(kind) + " (" <= text }

  lemma PatternChars(text: string, kind: Kind)
    requires WaitsGlobally(text, kind)
    ensures var name := KindName(kind); text[0] == name[0] && text[2] == name[2] && text[|name|] == ' '
  {
    var p := KindName(kind) + " (";
    assert text[0] == p[0] && text[2] == p[2] && text[|KindName(kind)|] == p[|KindName(kind)|];
  }

  /** The text pattern means what it should: a case is parked on the global limit of `kind`
      exactly if it was denied by that limit and not by the limit of a scope. */
  lemma PatternIsExact(d: Denial, kind: Kind)
    ensures WaitsGlobally(Label(d), kind) <==> d.kind == kind && d.scope == ""
  {
    var text, name := Label(d), KindName(d.kind);
    assert text[..|name|] == name;
    assert text[0] == name[0] && text[2] == name[2];
    assert text[|name|] == if d.scope == "" then ' ' else ':';
    if d.kind == kind && d.scope == "" {
      assert text[..|name| + 2] == name + " (";
    }
    if WaitsGlobally(text, kind) { PatternChars(text, kind); }
  }

  predicate Queued(c: CaseInfo, kind: Kind) {
    !c.terminal && c.waitingSince.Some? && c.waitingFor.Some? && WaitsGlobally(c.waitingFor.value, kind)
  }

  predicate Before(c: CaseInfo, since: Option<int>) {
    c.waitingSince.Some? && (since.Some? ==> c.waitingSince.value < since.value)
  }

  function Since(cases: map<nat, CaseInfo>, id: nat): Option<int> {
    if id in cases then cases[id].waitingSince else None
  }

  /** Live cases parked on the global limit strictly longer than `id`; all of them if it is new. */
  function Ahead(cases: map<nat, CaseInfo>, kind: Kind, id: nat): set<nat> {
    set c <- cases | c != id && Queued(cases[c], kind) && Before(cases[c], Since(cases, id))
  }

  // ------------------------------------------------------------------ operations

  datatype Request = Request(
    kind: Kind, caseId: nat, scope: string, attempt: Option<nat>, perScope: Option<nat>, force: bool, owner: string)

  datatype Outcome = Granted(index: nat) | Denied(denial: Denial)

  function ReleaseWhere(leases: seq<Lease>, which: set<nat>, now: int): (r: seq<Lease>)
    ensures |r| == |leases|
    ensures forall i | 0 <= i < |r| :: r[i] == if i in which then leases[i].(releasedAt := Some(now)) else leases[i]
  {
    seq(|leases|, i requires 0 <= i < |leases| => if i in which then leases[i].(releasedAt := Some(now)) else leases[i])
  }

  /** Unreleased leases bound to an attempt that is no longer live. */
  function Finished(leases: seq<Lease>, ended: set<nat>): set<nat> {
    set i | 0 <= i < |leases| && Unreleased(leases[i]) && leases[i].attempt.Some? && leases[i].attempt.value in ended
  }

  function Reconciled(g: Ledger, now: int): Ledger {
    g.(leases := ReleaseWhere(g.leases, Finished(g.leases, g.ended), now))
  }

  predicate Mine(l: Lease, r: Request) {
    l.kind == r.kind && l.scope == r.scope && l.caseId == r.caseId && Unreleased(l)
  }

  function FindMine(leases: seq<Lease>, r: Request): (i: Option<nat>)
    ensures i.Some? ==> i.value < |leases| && Mine(leases[i.value], r)
    ensures i.None? ==> forall j | 0 <= j < |leases| :: !Mine(leases[j], r)
  {
    if leases == [] then None
    else if Mine(leases[|leases| - 1], r) then Some(|leases| - 1)
    else FindMine(leases[..|leases| - 1], r)
  }

  function Renewed(l: Lease, r: Request, expires: int): Lease {
    l.(expiresAt := expires, owner := r.owner, attempt := if r.attempt.Some? then r.attempt else l.attempt)
  }

  function NewLease(r: Request, expires: int): Lease {
    Lease(r.kind, r.scope, r.caseId, r.attempt, r.owner, expires, None, r.force)
  }

  function ScopeLimit(r: Request): Option<nat> { if r.kind == Resource then Some(1) else r.perScope }

  /** The limits and the queue, once the case holds no lease any more. */
  function Verdict(g: Ledger, r: Request, now: int): Option<Denial> {
    var limit := g.limits.ForKind(r.kind);
    var total := InUse(g.leases, r.kind, None, now);
    var ahead := |Ahead(g.cases, r.kind, r.caseId)|;
    if limit > 0 && !r.force && total >= limit then Some(Denial(r.kind, "", limit, total, 0))
    else if limit > 0 && !r.force && ahead >= limit - total then Some(Denial(r.kind, "", limit, total, ahead))
    else if ScopeLimit(r).Some? && r.scope != "" && !r.force &&
            InUse(g.leases, r.kind, Some(r.scope), now) >= ScopeLimit(r).value then
      Some(Denial(r.kind, r.scope, ScopeLimit(r).value, InUse(g.leases, r.kind, Some(r.scope), now), 0))
    else None
  }

  /** `acquire`. */
  function Acquired(g: Ledger, r: Request, now: int): (Ledger, Outcome) {
    var clean := Reconciled(g, now);
    var expires := now + g.limits.leaseSeconds;
    match FindMine(clean.leases, r)
    case Some(i) =>
      if clean.leases[i].expiresAt > now then
        (clean.(leases := clean.leases[i := Renewed(clean.leases[i], r, expires)]), Granted(i))
      else Competed(clean.(leases := ReleaseWhere(clean.leases, {i}, now)), r, now)
    case None => Competed(clean, r, now)
  }

  function Competed(g: Ledger, r: Request, now: int): (Ledger, Outcome) {
    match Verdict(g, r, now)
    case Some(d) => (g, Denied(d))
    case None => (g.(leases := g.leases + [NewLease(r, now + g.limits.leaseSeconds)]), Granted(|g.leases|))
  }

  // ------------------------------------------------------------------ who is admitted

  /** The case holds a live lease for the request, once the leases of ended attempts are gone. */
  predicate HoldsLive(g: Ledger, r: Request, now: int) {
    var clean := Reconciled(g, now);
    FindMine(clean.leases, r).Some? && clean.leases[FindMine(clean.leases, r).value].expiresAt > now
  }

  /** The ledger a request competes in: finished attempts and its own lapsed lease are released. */
  function Arena(g: Ledger, r: Request, now: int): Ledger {
    var clean := Reconciled(g, now);
    match FindMine(clean.leases, r)
    case Some(i) => clean.(leases := ReleaseWhere(clean.leases, {i}, now))
    case None => clean
  }

  /** Where in the table the leases of the kind, and of the scope if one is given, are that are neither
      released nor lapsed, however they were granted. */
  function Taken(leases: seq<Lease>, kind: Kind, scope: Option<string>, now: int): set<nat> {
    set i | 0 <= i < |leases| && leases[i].kind == kind && (scope.Some? ==> leases[i].scope == scope.value) &&
            leases[i].releasedAt.None? && now < leases[i].expiresAt
  }

  lemma TakenGrows(leases: seq<Lease>, l: Lease, kind: Kind, scope: Option<string>, now: int)
    ensures
      var before, after := Taken(leases, kind, scope, now), Taken(leases + [l], kind, scope, now);
      after == (if Counts(l, kind, scope, now, false) then before + {|leases|} else before) && |leases| !in before
  {
    var all := leases + [l];
    forall i | 0 <= i < |leases| ensures all[i] == leases[i] {}
  }

  lemma {:induction false} InUseCounts(leases: seq<Lease>, kind: Kind, scope: Option<string>, now: int)
    ensures InUse(leases, kind, scope, now) == |Taken(leases, kind, scope, now)|
  {
    hide Counts, Taken;
    if leases == [] {
      assert Taken(leases, kind, scope, now) == {} by { NoneTaken(kind, scope, now); }
    } else {
      var n := |leases| - 1;
      InUseCounts(leases[..n], kind, scope, now);
      assert leases == leases[..n] + [leases[n]];
      TakenGrows(leases[..n], leases[n], kind, scope, now);
    }
  }

  lemma NoneTaken(kind: Kind, scope: Option<string>, now: int)
    ensures Taken([], kind, scope, now) == {}
  {}

  /** The live cases that were parked on the global limit of the kind before this one was, or all of
      them if it has not been waiting. */
  function LongerWaiting(cases: map<nat, CaseInfo>, kind: Kind, id: nat): set<nat> {
    set c <- cases | c != id && !cases[c].terminal && cases[c].waitingFor.Some? && WaitsGlobally(cases[c].waitingFor.value, kind) &&
                     cases[c].waitingSince.Some? &&
                     (id in cases && cases[id].waitingSince.Some? ==> cases[c].waitingSince.value < cases[id].waitingSince.value)
  }

  lemma AheadWaitedLonger(cases: map<nat, CaseInfo>, kind: Kind, id: nat)
    ensures Ahead(cases, kind, id) == LongerWaiting(cases, kind, id)
  {}

  /** More slots of the kind are free than cases have waited longer for one; or it has no limit. */
  predicate RoomInKind(g: Ledger, r: Request, now: int) {
    var limit := g.limits.ForKind(r.kind);
    limit == 0 || |Taken(g.leases, r.kind, None, now)| + |LongerWaiting(g.cases, r.kind, r.caseId)| < limit
  }

  /** No limit applies to the scope, or fewer leases of it are active: none, for a resource key. */
  predicate RoomInScope(g: Ledger, r: Request, now: int) {
    var active := |Taken(g.leases, r.kind, Some(r.scope), now)|;
    r.scope != "" ==> if r.kind == Resource then active == 0 else r.perScope.Some? ==> active < r.perScope.value
  }

  /** Who holds a live lease, or asks by force, and anybody there is room for. */
  predicate Admits(g: Ledger, r: Request, now: int) {
    || HoldsLive(g, r, now) || r.force
    || (RoomInKind(Arena(g, r, now), r, now) && RoomInScope(Arena(g, r, now), r, now))
  }

  /** The law of admission: a request is granted exactly if it is admitted. A newcomer's grant adds
      one lease, its own; a live lease is renewed; a denial adds none and names the limit that stood
      in the way, the global one first. */
  lemma AdmittedExactly(g: Ledger, r: Request, now: int)
    ensures
      var arena := Arena(g, r, now);
      var (after, outcome) := Acquired(g, r, now);
      && (outcome.Granted? <==> Admits(g, r, now))
      && (outcome.Granted? && !HoldsLive(g, r, now) ==>
            && outcome.index == |arena.leases|
            && after == arena.(leases := arena.leases +
                 [Lease(r.kind, r.scope, r.caseId, r.attempt, r.owner, now + g.limits.leaseSeconds, None, r.force)]))
      && (outcome.Denied? ==>
            var d := outcome.denial;
            && after == arena && d.kind == r.kind
            && (d.scope == "" <==> !RoomInKind(arena, r, now))
            && (d.scope == "" ==>
                  && d.limit == g.limits.ForKind(r.kind) && d.inUse == |Taken(arena.leases, r.kind, None, now)|
                  && d.behind == if d.inUse >= d.limit then 0 else |LongerWaiting(g.cases, r.kind, r.caseId)|)
            && (d.scope != "" ==> d.scope == r.scope && d.limit <= d.inUse == |Taken(arena.leases, r.kind, Some(r.scope), now)|))
    ensures HoldsLive(g, r, now) ==> RenewsExactly(g, r, now)
  {
    hide InUse, Ahead, Taken, LongerWaiting;
    var arena := Arena(g, r, now);
    InUseCounts(arena.leases, r.kind, None, now);
    InUseCounts(arena.leases, r.kind, Some(r.scope), now);
    AheadWaitedLonger(g.cases, r.kind, r.caseId);
    if !HoldsLive(g, r, now) { assert Acquired(g, r, now) == Competed(arena, r, now); }
  }

  /** The lease that the case holds is prolonged and bound anew, and no other is touched. */
  ghost predicate RenewsExactly(g: Ledger, r: Request, now: int) {
    var clean := Reconciled(g, now);
    var (after, outcome) := Acquired(g, r, now);
    && outcome.Granted? && outcome.index < |clean.leases| && Mine(clean.leases[outcome.index], r)
    && var l := clean.leases[outcome.index];
       after == clean.(leases := clean.leases[outcome.index :=
         l.(expiresAt := now + g.limits.leaseSeconds, owner := r.owner, attempt := if r.attempt.Some? then r.attempt else l.attempt)])
  }

  function OwnedBy(leases: seq<Lease>, kind: Kind, id: nat, scope: Option<string>): set<nat> {
    set i | 0 <= i < |leases| && leases[i].kind == kind && leases[i].caseId == id && Unreleased(leases[i]) &&
            (scope.Some? ==> leases[i].scope == scope.value)
  }

  function HeldBy(leases: seq<Lease>, id: nat): set<nat> {
    set i | 0 <= i < |leases| && leases[i].caseId == id && Unreleased(leases[i])
  }

  function Stale(leases: seq<Lease>, now: int): set<nat> {
    set i | 0 <= i < |leases| && Unreleased(leases[i]) && leases[i].expiresAt <= now
  }

  /** A beat does not look at the expiry, so it may revive a lapsed lease. */
  function Beaten(l: Lease, ids: set<nat>, owner: string, now: int, expires: int): Lease {
    if l.caseId in ids && l.owner == owner && Unreleased(l)
    then l.(expiresAt := expires, exempt := l.exempt || l.expiresAt <= now) else l
  }

  function Beat(leases: seq<Lease>, ids: set<nat>, owner: string, now: int, expires: int): (r: seq<Lease>)
    ensures |r| == |leases|
    ensures forall i | 0 <= i < |r| :: r[i] == Beaten(leases[i], ids, owner, now, expires)
  {
    seq(|leases|, i requires 0 <= i < |leases| => Beaten(leases[i], ids, owner, now, expires))
  }

  /** `mark_waiting`: the first denial starts the clock, later ones keep it. */
  function Marked(c: CaseInfo, d: Denial, now: int): CaseInfo {
    c.(waitingFor := Some(Label(d)), waitingSince := if c.waitingSince.None? then Some(now) else c.waitingSince)
  }

  function Cleared(c: CaseInfo): CaseInfo { c.(waitingFor := None, waitingSince := None) }

  // ------------------------------------------------------------------ the ledger, updated in place

  class CapacityLedger {
    const limits: Limits
    var leases: seq<Lease>
    var cases: map<nat, CaseInfo>
    var ended: set<nat>

    ghost function View(): Ledger
      reads this
    {
      Ledger(limits, leases, cases, ended)
    }

    constructor (limits: Limits)
      ensures View() == Ledger(limits, [], map[], {})
    {
      this.limits := limits;
      leases, cases, ended := [], map[], {};
    }

    /** Afterwards no unreleased lease is bound to an attempt that ended, and no other lease has
        been touched. */
    method ReconcileFinished(now: int) returns (count: nat)
      modifies this`leases
      ensures |leases| == |old(leases)|
      ensures forall i | 0 <= i < |leases| ::
                if Unreleased(old(leases)[i]) && old(leases)[i].attempt.Some? && old(leases)[i].attempt.value in ended
                then leases[i] == old(leases)[i].(releasedAt := Some(now)) else leases[i] == old(leases)[i]
      ensures forall l <- leases :: Unreleased(l) && l.attempt.Some? ==> l.attempt.value !in ended
      ensures count == |set i | 0 <= i < |leases| && leases[i] != old(leases)[i]|
      ensures View() == Reconciled(old(View()), now)
    {
      var finished := Finished(leases, ended);
      leases := ReleaseWhere(leases, finished, now);
      count := |finished|;
      assert finished == set i | 0 <= i < |leases| && leases[i] != old(leases)[i];
    }

    method Acquire(r: Request, now: int) returns (outcome: Outcome)
      modifies this`leases
      ensures View() == Acquired(old(View()), r, now).0
      ensures outcome == Acquired(old(View()), r, now).1
      ensures outcome.Granted? <==> Admits(old(View()), r, now)
    {
      hide Competed, ReleaseWhere, Reconciled, Finished, Renewed, Admits;
      assert Acquired(View(), r, now).1.Granted? <==> Admits(View(), r, now) by { AdmittedExactly(View(), r, now); }
      var _ := ReconcileFinished(now);
      var existing := FindMine(leases, r);
      if existing.Some? && leases[existing.value].expiresAt > now {
        leases := leases[existing.value := Renewed(leases[existing.value], r, now + limits.leaseSeconds)];
        return Granted(existing.value);
      }
      if existing.Some? {
        leases := ReleaseWhere(leases, {existing.value}, now);
      }
      outcome := Compete(r, now);
    }

    /** The rest of `acquire`, once the case holds no lease any more. */
    method Compete(r: Request, now: int) returns (outcome: Outcome)
      modifies this`leases
      ensures View() == Competed(old(View()), r, now).0
      ensures outcome == Competed(old(View()), r, now).1
    {
      hide InUse, Ahead, NewLease;
      var scopeLimit := r.perScope;
      if r.kind == Resource {
        scopeLimit := Some(1);
      }
      var limit := limits.ForKind(r.kind);
      if limit > 0 && !r.force {
        var total := InUse(leases, r.kind, None, now);
        if total >= limit {
          return Denied(Denial(r.kind, "", limit, total, 0));
        }
        var ahead := |Ahead(cases, r.kind, r.caseId)|;
        if ahead >= limit - total {
          return Denied(Denial(r.kind, "", limit, total, ahead));
        }
      }
      if scopeLimit.Some? && r.scope != "" && !r.force {
        var scoped := InUse(leases, r.kind, Some(r.scope), now);
        if scoped >= scopeLimit.value {
          return Denied(Denial(r.kind, r.scope, scopeLimit.value, scoped, 0));
        }
      }
      leases := leases + [NewLease(r, now + limits.leaseSeconds)];
      return Granted(|leases| - 1);
    }

    /** The unreleased leases of the case, the kind and, if one is given, the scope are released, no
        other lease is touched, and the count is theirs. */
    method Release(kind: Kind, id: nat, scope: Option<string>, now: int) returns (count: nat)
      modifies this`leases
      ensures |leases| == |old(leases)|
      ensures forall i | 0 <= i < |leases| ::
                var l := old(leases)[i];
                leases[i] == if Unreleased(l) && l.kind == kind && l.caseId == id && (scope.None? || scope.value == l.scope)
                             then l.(releasedAt := Some(now)) else l
      ensures count == |set i | 0 <= i < |leases| && leases[i] != old(leases)[i]|
      ensures leases == ReleaseWhere(old(leases), OwnedBy(old(leases), kind, id, scope), now)
    {
      ghost var owned := OwnedBy(leases, kind, id, scope);
      count := |OwnedBy(leases, kind, id, scope)|;
      leases := ReleaseWhere(leases, OwnedBy(leases, kind, id, scope), now);
      assert owned == set i | 0 <= i < |leases| && leases[i] != old(leases)[i];
    }

    /** The unreleased leases of the case are released, and no other lease is touched. */
    method ReleaseAllForCase(id: nat, now: int)
      modifies this`leases
      ensures |leases| == |old(leases)|
      ensures forall i | 0 <= i < |leases| ::
                var l := old(leases)[i];
                leases[i] == if Unreleased(l) && l.caseId == id then l.(releasedAt := Some(now)) else l
      ensures leases == ReleaseWhere(old(leases), HeldBy(old(leases), id), now)
    {
      leases := ReleaseWhere(leases, HeldBy(leases, id), now);
    }

    /** Every unreleased lease of the owner on these cases lasts until the new time, lapsed or not,
        and no other lease has been touched. */
    method Heartbeat(ids: set<nat>, owner: string, now: int)
      modifies this`leases
      ensures |leases| == |old(leases)|
      ensures forall i | 0 <= i < |leases| ::
                var l := old(leases)[i];
                if l.caseId in ids && l.owner == owner && Unreleased(l)
                then leases[i].expiresAt == now + limits.leaseSeconds && leases[i] == l.(expiresAt := leases[i].expiresAt, exempt := leases[i].exempt)
                else leases[i] == l
      ensures leases == Beat(old(leases), ids, owner, now, now + limits.leaseSeconds)
    {
      if ids == {} {
        assert forall i | 0 <= i < |leases| :: Beaten(leases[i], ids, owner, now, now + limits.leaseSeconds) == leases[i];
        return;
      }
      leases := Beat(leases, ids, owner, now, now + limits.leaseSeconds);
    }

    /** Every lapsed lease is released, so what is left unreleased is active, and no other lease is
        touched. */
    method ExpireStale(now: int)
      modifies this`leases
      ensures |leases| == |old(leases)|
      ensures forall i | 0 <= i < |leases| ::
                var l := old(leases)[i];
                leases[i] == if Unreleased(l) && l.expiresAt <= now then l.(releasedAt := Some(now)) else l
      ensures forall l <- leases :: Unreleased(l) ==> Active(l, now)
      ensures leases == ReleaseWhere(old(leases), Stale(old(leases), now), now)
    {
      leases := ReleaseWhere(leases, Stale(leases, now), now);
    }

    /** `_acquire_capacity`: a grant takes the case off every queue; a denial puts a live one on the
        queue of the kind exactly if the global limit stood in the way, and keeps the time since
        which it has been waiting. No other case is touched. */
    method TakeSlot(r: Request, now: int) returns (outcome: Outcome)
      requires r.caseId in cases
      modifies this`leases, this`cases
      ensures View() == SlotTaken(old(View()), r, now)
      ensures outcome == Acquired(old(View()), r, now).1
      ensures outcome.Granted? <==> Admits(old(View()), r, now)
      ensures cases == old(cases)[r.caseId := cases[r.caseId]] && cases[r.caseId].terminal == old(cases)[r.caseId].terminal
      ensures forall k: Kind :: Queued(cases[r.caseId], k) <==>
                outcome.Denied? && !cases[r.caseId].terminal && outcome.denial.kind == k && outcome.denial.scope == ""
      ensures var since := old(cases)[r.caseId].waitingSince;
              cases[r.caseId].waitingSince ==
              if outcome.Granted? then None else if since.None? then Some(now) else since
    {
      hide Admits;
      outcome := Acquire(r, now);
      if outcome.Denied? {
        forall k: Kind { PatternIsExact(outcome.denial, k); }
        hide Label, WaitsGlobally;
      }
      if outcome.Denied? {
        cases := cases[r.caseId := Marked(cases[r.caseId], outcome.denial, now)];
      } else {
        cases := cases[r.caseId := Cleared(cases[r.caseId])];
      }
    }
  }

  function SlotTaken(g: Ledger, r: Request, now: int): Ledger
    requires r.caseId in g.cases
  {
    var (after, outcome) := Acquired(g, r, now);
    match outcome
    case Denied(d) => after.(cases := after.cases[r.caseId := Marked(after.cases[r.caseId], d, now)])
    case Granted(_) => after.(cases := after.cases[r.caseId := Cleared(after.cases[r.caseId])])
  }

  // ------------------------------------------------------------------ runs

  datatype Op =
    | TakeSlot(request: Request)
    | Bind(request: Request)
    | Release(kind: Kind, caseId: nat, scope: Option<string>)
    | ReleaseAll(caseId: nat)
    | Heartbeat(ids: set<nat>, owner: string)
    | ExpireStale
    | Reconcile
    | AttemptEnds(attempt: nat)
    | CaseChanges(caseId: nat, terminal: bool)

  function Step(g: Ledger, op: Op, now: int): Ledger {
    match op
    case TakeSlot(r) => if r.caseId in g.cases then SlotTaken(g, r, now) else g
    case Bind(r) => Acquired(g, r, now).0
    case Release(kind, id, scope) => g.(leases := ReleaseWhere(g.leases, OwnedBy(g.leases, kind, id, scope), now))
    case ReleaseAll(id) => g.(leases := ReleaseWhere(g.leases, HeldBy(g.leases, id), now))
    case Heartbeat(ids, owner) => g.(leases := Beat(g.leases, ids, owner, now, now + g.limits.leaseSeconds))
    case ExpireStale => g.(leases := ReleaseWhere(g.leases, Stale(g.leases, now), now))
    case Reconcile => Reconciled(g, now)
    case AttemptEnds(a) => g.(ended := g.ended + {a})
    case CaseChanges(id, terminal) =>
      var was := if id in g.cases then g.cases[id] else CaseInfo(false, None, None);
      g.(cases := g.cases[id := was.(terminal := terminal)])
  }

  /** A run: operations and the times they were made at. */
  function Run(g: Ledger, ops: seq<(Op, int)>): Ledger {
    if ops == [] then g else Step(Run(g, ops[..|ops| - 1]), ops[|ops| - 1].0, ops[|ops| - 1].1)
  }

  ghost predicate Chronological(ops: seq<(Op, int)>) { forall i, j | 0 <= i < j < |ops| :: ops[i].1 <= ops[j].1 }

  function Clock(ops: seq<(Op, int)>): int
    requires ops != []
  {
    ops[|ops| - 1].1
  }

  // ------------------------------------------------------------------ the invariant

  /** One unreleased lease per case, kind and scope. */
  ghost predicate OnePerCase(leases: seq<Lease>) {
    forall i, j | 0 <= i < j < |leases| && Unreleased(leases[i]) && Unreleased(leases[j]) ::
      leases[i].kind != leases[j].kind || leases[i].scope != leases[j].scope || leases[i].caseId != leases[j].caseId
  }

  lemma OnlyOneMine(leases: seq<Lease>, r: Request, i: nat, j: nat)
    requires OnePerCase(leases) && i < |leases| && j < |leases| && Mine(leases[i], r) && Mine(leases[j], r)
    ensures i == j
  {}

  ghost predicate WithinLimits(g: Ledger, now: int) {
    && (forall k: Kind :: g.limits.ForKind(k) > 0 ==> Count(g.leases, k, None, now, true) <= g.limits.ForKind(k))
    && (forall key: string :: key != "" ==> Count(g.leases, Resource, Some(key), now, true) <= 1)
  }

  ghost predicate Sound(g: Ledger, now: int) { OnePerCase(g.leases) && WithinLimits(g, now) }

  /** Element by element: nothing that counts later did not count before. */
  lemma {:induction false} CountFalls(a: seq<Lease>, b: seq<Lease>, kind: Kind, scope: Option<string>, t: int, u: int, s1: bool, s2: bool)
    requires |a| == |b|
    requires forall i | 0 <= i < |a| :: Counts(b[i], kind, scope, u, s2) ==> Counts(a[i], kind, scope, t, s1)
    ensures Count(b, kind, scope, u, s2) <= Count(a, kind, scope, t, s1)
  {
    if a != [] { CountFalls(a[..|a| - 1], b[..|b| - 1], kind, scope, t, u, s1, s2); }
  }

  /** Leases stay the same slot and are released, renewed while active, or marked exempt. */
  predicate Ages(a: Lease, b: Lease, t: int, u: int) {
    && b.kind == a.kind && b.scope == a.scope && b.caseId == a.caseId
    && (Unreleased(b) ==> Unreleased(a))
    && (Active(b, u) && !b.exempt ==> Active(a, t) && !a.exempt)
  }

  ghost predicate LeasesAge(a: seq<Lease>, b: seq<Lease>, t: int, u: int) {
    |a| == |b| && forall i | 0 <= i < |a| :: Ages(a[i], b[i], t, u)
  }

  lemma AgingKeeps(g: Ledger, h: Ledger, t: int, u: int)
    requires Sound(g, t) && h.limits == g.limits && LeasesAge(g.leases, h.leases, t, u)
    ensures Sound(h, u)
  {
    forall i, j | 0 <= i < j < |h.leases| && Unreleased(h.leases[i]) && Unreleased(h.leases[j])
      ensures h.leases[i].kind != h.leases[j].kind || h.leases[i].scope != h.leases[j].scope ||
              h.leases[i].caseId != h.leases[j].caseId
    {
      assert Ages(g.leases[i], h.leases[i], t, u) && Ages(g.leases[j], h.leases[j], t, u);
    }
    forall k: Kind | g.limits.ForKind(k) > 0 ensures Count(h.leases, k, None, u, true) <= g.limits.ForKind(k) {
      CountFalls(g.leases, h.leases, k, None, t, u, true, true);
    }
    forall key: string | key != "" ensures Count(h.leases, Resource, Some(key), u, true) <= 1 {
      CountFalls(g.leases, h.leases, Resource, Some(key), t, u, true, true);
    }
  }

  lemma CountAppends(leases: seq<Lease>, l: Lease, kind: Kind, scope: Option<string>, now: int)
    ensures Count(leases + [l], kind, scope, now, true) ==
            Count(leases, kind, scope, now, true) + (if Counts(l, kind, scope, now, true) then 1 else 0)
    ensures Count(leases, kind, scope, now, true) <= InUse(leases, kind, scope, now)
  {
    assert (leases + [l])[..|leases|] == leases;
    CountFalls(leases, leases, kind, scope, now, now, false, true);
  }

  /** A grant goes to a case without a lease, and only into a free slot. */
  lemma CompetedKeeps(g: Ledger, r: Request, now: int)
    requires Sound(g, now) && forall j | 0 <= j < |g.leases| :: !Mine(g.leases[j], r)
    ensures Sound(Competed(g, r, now).0, now)
  {
    if Verdict(g, r, now).None? {
      var l := NewLease(r, now + g.limits.leaseSeconds);
      var h := Competed(g, r, now).0;
      forall k: Kind | g.limits.ForKind(k) > 0 ensures Count(h.leases, k, None, now, true) <= g.limits.ForKind(k) {
        CountAppends(g.leases, l, k, None, now);
      }
      forall key: string | key != "" ensures Count(h.leases, Resource, Some(key), now, true) <= 1 {
        CountAppends(g.leases, l, Resource, Some(key), now);
      }
    }
  }

  lemma AcquiredKeeps(g: Ledger, r: Request, t: int, now: int)
    requires Sound(g, t) && t <= now
    ensures Sound(Acquired(g, r, now).0, now)
  {
    hide Count, Verdict;
    var clean := Reconciled(g, now);
    AgingKeeps(g, clean, t, now);
    match FindMine(clean.leases, r)
    case None => CompetedKeeps(clean, r, now);
    case Some(i) =>
      if clean.leases[i].expiresAt > now {
        AgingKeeps(clean, Acquired(g, r, now).0, now, now);
      } else {
        var freed := clean.(leases := ReleaseWhere(clean.leases, {i}, now));
        AgingKeeps(clean, freed, now, now);
        forall j | 0 <= j < |freed.leases| ensures !Mine(freed.leases[j], r) {
          if Mine(clean.leases[j], r) { OnlyOneMine(clean.leases, r, i, j); }
        }
        CompetedKeeps(freed, r, now);
      }
  }

  lemma StepKeeps(g: Ledger, op: Op, t: int, now: int)
    requires Sound(g, t) && t <= now
    ensures Sound(Step(g, op, now), now)
    ensures Step(g, op, now).limits == g.limits
  {
    hide Count, Acquired, Sound;
    match op
    case TakeSlot(r) =>
      AgingKeeps(g, g, t, now);
      AcquiredKeeps(g, r, t, now);
      if r.caseId in g.cases { SameLeases(Acquired(g, r, now).0, Step(g, op, now), now) by { LimitsStay(g, r, now); } }
      LimitsStay(g, r, now);
    case Bind(r) => AcquiredKeeps(g, r, t, now); LimitsStay(g, r, now);
    case Heartbeat(ids, owner) => AgingKeeps(g, Step(g, op, now), t, now);
    case _ => AgingKeeps(g, Step(g, op, now), t, now);
  }

  lemma SameLeases(g: Ledger, h: Ledger, now: int)
    requires Sound(g, now) && h.leases == g.leases && h.limits == g.limits
    ensures Sound(h, now)
  {}

  lemma LimitsStay(g: Ledger, r: Request, now: int)
    ensures Acquired(g, r, now).0.limits == g.limits && Acquired(g, r, now).0.cases == g.cases
  {}

  lemma {:induction false} RunSound(limits: Limits, ops: seq<(Op, int)>, now: int)
    requires Chronological(ops) && (ops != [] ==> Clock(ops) <= now)
    ensures Sound(Run(Ledger(limits, [], map[], {}), ops), now)
    ensures Run(Ledger(limits, [], map[], {}), ops).limits == limits
  {
    if ops != [] {
      hide Step, Sound;
      var front := ops[..|ops| - 1];
      RunSound(limits, front, Clock(ops));
      var g := Run(Ledger(limits, [], map[], {}), front);
      StepKeeps(g, ops[|ops| - 1].0, Clock(ops), Clock(ops));
      AgingKeeps(Step(g, ops[|ops| - 1].0, Clock(ops)), Run(Ledger(limits, [], map[], {}), ops), Clock(ops), now);
    }
  }

  /** In every reachable ledger, at every later time: the active leases of a kind number at most
      its limit, a case holds at most one unreleased lease per kind and scope, and a resource key
      has at most one holder; leases granted by force or revived after they lapsed aside. */
  lemma LimitsHold(limits: Limits, ops: seq<(Op, int)>, now: int, kind: Kind, key: string)
    requires Chronological(ops) && (ops != [] ==> Clock(ops) <= now)
    ensures
      var g := Run(Ledger(limits, [], map[], {}), ops);
      && (limits.ForKind(kind) > 0 ==> Count(g.leases, kind, None, now, true) <= limits.ForKind(kind))
      && (key != "" ==> Count(g.leases, Resource, Some(key), now, true) <= 1)
      && OnePerCase(g.leases)
  {
    RunSound(limits, ops, now);
  }

  // ------------------------------------------------------------------ the limit of a scope

  /** Every request for this scope asks for the same limit, but those by force, which ask for none. */
  predicate AsksFor(op: Op, kind: Kind, scope: string, limit: nat) {
    (op.TakeSlot? || op.Bind?) && !op.request.force && op.request.kind == kind && op.request.scope == scope ==>
      ScopeLimit(op.request) == Some(limit)
  }

  ghost predicate WithinScope(leases: seq<Lease>, kind: Kind, scope: string, limit: nat, now: int) {
    Count(leases, kind, Some(scope), now, true) <= limit
  }

  lemma CompetedKeepsScope(g: Ledger, r: Request, now: int, kind: Kind, scope: string, limit: nat)
    requires WithinScope(g.leases, kind, scope, limit, now) && scope != ""
    requires !r.force && r.kind == kind && r.scope == scope ==> ScopeLimit(r) == Some(limit)
    ensures WithinScope(Competed(g, r, now).0.leases, kind, scope, limit, now)
  {
    if Verdict(g, r, now).None? { CountAppends(g.leases, NewLease(r, now + g.limits.leaseSeconds), kind, Some(scope), now); }
  }

  lemma AgingKeepsScope(a: seq<Lease>, b: seq<Lease>, t: int, u: int, kind: Kind, scope: string, limit: nat)
    requires WithinScope(a, kind, scope, limit, t) && LeasesAge(a, b, t, u)
    ensures WithinScope(b, kind, scope, limit, u)
  {
    forall i | 0 <= i < |a| ensures Counts(b[i], kind, Some(scope), u, true) ==> Counts(a[i], kind, Some(scope), t, true) {
      assert Ages(a[i], b[i], t, u);
    }
    CountFalls(a, b, kind, Some(scope), t, u, true, true);
  }

  lemma AcquiredKeepsScope(g: Ledger, r: Request, t: int, now: int, kind: Kind, scope: string, limit: nat)
    requires WithinScope(g.leases, kind, scope, limit, t) && scope != "" && t <= now
    requires !r.force && r.kind == kind && r.scope == scope ==> ScopeLimit(r) == Some(limit)
    ensures WithinScope(Acquired(g, r, now).0.leases, kind, scope, limit, now)
  {
    hide Count, Verdict, WithinScope, Competed;
    var clean := Reconciled(g, now);
    AgingKeepsScope(g.leases, clean.leases, t, now, kind, scope, limit);
    match FindMine(clean.leases, r)
    case None => CompetedKeepsScope(clean, r, now, kind, scope, limit);
    case Some(i) =>
      if clean.leases[i].expiresAt > now {
        AgingKeepsScope(clean.leases, Acquired(g, r, now).0.leases, now, now, kind, scope, limit);
      } else {
        var freed := clean.(leases := ReleaseWhere(clean.leases, {i}, now));
        AgingKeepsScope(clean.leases, freed.leases, now, now, kind, scope, limit);
        CompetedKeepsScope(freed, r, now, kind, scope, limit);
      }
  }

  lemma StepKeepsScope(g: Ledger, op: Op, t: int, now: int, kind: Kind, scope: string, limit: nat)
    requires WithinScope(g.leases, kind, scope, limit, t) && scope != "" && t <= now && AsksFor(op, kind, scope, limit)
    ensures WithinScope(Step(g, op, now).leases, kind, scope, limit, now)
  {
    hide Count, Acquired, WithinScope;
    match op
    case TakeSlot(r) =>
      AcquiredKeepsScope(g, r, t, now, kind, scope, limit);
      AgingKeepsScope(g.leases, g.leases, t, now, kind, scope, limit);
      if r.caseId in g.cases { LimitsStay(g, r, now); }
    case Bind(r) => AcquiredKeepsScope(g, r, t, now, kind, scope, limit);
    case _ => AgingKeepsScope(g.leases, Step(g, op, now).leases, t, now, kind, scope, limit);
  }

  /** In every run whose unforced requests for a scope - a repository, for remediation - carry the
      same limit, the active leases of the scope stay within it at every later time; leases granted
      by force or revived after they lapsed aside. */
  lemma {:induction false} ScopeLimitHolds(limits: Limits, ops: seq<(Op, int)>, now: int, kind: Kind, scope: string, limit: nat)
    requires Chronological(ops) && (ops != [] ==> Clock(ops) <= now) && scope != ""
    requires forall o <- ops :: AsksFor(o.0, kind, scope, limit)
    ensures Count(Run(Ledger(limits, [], map[], {}), ops).leases, kind, Some(scope), now, true) <= limit
  {
    if ops != [] {
      hide Step, Count;
      var front, last := ops[..|ops| - 1], ops[|ops| - 1];
      ScopeLimitHolds(limits, front, last.1, kind, scope, limit);
      var g := Run(Ledger(limits, [], map[], {}), front);
      StepKeepsScope(g, last.0, last.1, last.1, kind, scope, limit);
      var after := Step(g, last.0, last.1).leases;
      AgingKeepsScope(after, after, last.1, now, kind, scope, limit);
    }
  }

  // ------------------------------------------------------------------ late beats

  /** An unreleased lease of the beating owner that has already lapsed. */
  predicate Late(l: Lease, ids: set<nat>, owner: string, now: int) {
    l.caseId in ids && l.owner == owner && Unreleased(l) && l.expiresAt <= now
  }

  function LateOnes(leases: seq<Lease>, kind: Kind, ids: set<nat>, owner: string, now: int): nat {
    if leases == [] then 0
    else LateOnes(leases[..|leases| - 1], kind, ids, owner, now) +
         (if leases[|leases| - 1].kind == kind && Late(leases[|leases| - 1], ids, owner, now) then 1 else 0)
  }

  lemma {:induction false} BeatAddsLateOnes(leases: seq<Lease>, kind: Kind, ids: set<nat>, owner: string, now: int, expires: int)
    requires expires > now
    ensures InUse(Beat(leases, ids, owner, now, expires), kind, None, now) ==
            InUse(leases, kind, None, now) + LateOnes(leases, kind, ids, owner, now)
  {
    if leases != [] {
      var n := |leases| - 1;
      BeatAddsLateOnes(leases[..n], kind, ids, owner, now, expires);
      assert Beat(leases, ids, owner, now, expires)[..n] == Beat(leases[..n], ids, owner, now, expires);
    }
  }

  lemma {:induction false} NoLateOnes(leases: seq<Lease>, kind: Kind, ids: set<nat>, owner: string, now: int)
    ensures LateOnes(leases, kind, ids, owner, now) == 0 <==>
            forall l <- leases :: l.kind == kind ==> !Late(l, ids, owner, now)
  {
    if leases != [] {
      var front, last := leases[..|leases| - 1], leases[|leases| - 1];
      NoLateOnes(front, kind, ids, owner, now);
      assert leases == front + [last];
    }
  }

  /** A heartbeat leaves the number of active leases of a kind alone exactly if none of the leases
      it beats has already lapsed; otherwise it adds as many as have. */
  lemma BeatKeepsCountExactly(g: Ledger, kind: Kind, ids: set<nat>, owner: string, now: int)
    requires g.limits.leaseSeconds > 0
    ensures InUse(Step(g, Op.Heartbeat(ids, owner), now).leases, kind, None, now) == InUse(g.leases, kind, None, now) <==>
            forall l <- g.leases :: l.kind == kind ==> !Late(l, ids, owner, now)
  {
    BeatAddsLateOnes(g.leases, kind, ids, owner, now, now + g.limits.leaseSeconds);
    NoLateOnes(g.leases, kind, ids, owner, now);
  }

  // ------------------------------------------------------------------ bindings

  lemma SameCount(a: seq<Lease>, b: seq<Lease>, kind: Kind, now: int)
    requires |a| == |b| && forall i | 0 <= i < |a| :: Counts(b[i], kind, None, now, false) == Counts(a[i], kind, None, now, false)
    ensures InUse(b, kind, None, now) == InUse(a, kind, None, now)
  {
    CountFalls(a, b, kind, None, now, now, false, false);
    CountFalls(b, a, kind, None, now, now, false, false);
  }

  lemma GrantAddsOne(g: Ledger, r: Request, now: int)
    requires r.force && g.limits.leaseSeconds > 0
    ensures InUse(Competed(g, r, now).0.leases, r.kind, None, now) == InUse(g.leases, r.kind, None, now) + 1
  {
    hide InUse;
    assert Verdict(g, r, now).None?;
    var l := NewLease(r, now + g.limits.leaseSeconds);
    assert InUse(g.leases + [l], r.kind, None, now) == InUse(g.leases, r.kind, None, now) + 1 by { OneMore(g.leases, l, now); }
  }

  lemma OneMore(leases: seq<Lease>, l: Lease, now: int)
    requires Active(l, now)
    ensures InUse(leases + [l], l.kind, None, now) == InUse(leases, l.kind, None, now) + 1
  {
    assert (leases + [l])[..|leases|] == leases;
  }

  /** Attaching a session that is live already, by force: the number of active leases of its kind
      stays exactly if the case still holds a live lease for it; otherwise it grows by one, whatever
      the limit. */
  lemma BindKeepsCountExactly(g: Ledger, r: Request, now: int)
    requires r.force && g.limits.leaseSeconds > 0
    ensures
      var before := InUse(Reconciled(g, now).leases, r.kind, None, now);
      InUse(Step(g, Bind(r), now).leases, r.kind, None, now) == if HoldsLive(g, r, now) then before else before + 1
  {
    hide InUse, Competed;
    var clean := Reconciled(g, now);
    match FindMine(clean.leases, r)
    case None => GrantAddsOne(clean, r, now);
    case Some(i) =>
      if clean.leases[i].expiresAt > now {
        SameCount(clean.leases, Step(g, Bind(r), now).leases, r.kind, now);
      } else {
        var freed := clean.(leases := ReleaseWhere(clean.leases, {i}, now));
        SameCount(clean.leases, freed.leases, r.kind, now);
        GrantAddsOne(freed, r, now);
      }
  }

  /** The operation neither beats a lapsed lease of `kind` nor grants one by force; a forced request
      may renew what its case still holds. */
  predicate Prompt(g: Ledger, op: Op, now: int, kind: Kind) {
    match op
    case Heartbeat(ids, owner) => forall l <- g.leases :: l.kind == kind ==> !Late(l, ids, owner, now)
    case TakeSlot(r) => r.kind == kind && r.force && r.caseId in g.cases ==> HoldsLive(g, r, now)
    case Bind(r) => r.kind == kind && r.force ==> HoldsLive(g, r, now)
    case _ => true
  }

  ghost predicate NoneExempt(leases: seq<Lease>, kind: Kind) {
    forall i | 0 <= i < |leases| :: leases[i].kind == kind ==> !leases[i].exempt
  }

  lemma PromptKeeps(g: Ledger, op: Op, now: int, kind: Kind)
    requires NoneExempt(g.leases, kind) && Prompt(g, op, now, kind)
    ensures NoneExempt(Step(g, op, now).leases, kind)
  {
    hide Count, Verdict, HoldsLive;
    match op
    case TakeSlot(r) => if r.caseId in g.cases { AcquiredExempts(g, r, now, kind); LimitsStay(g, r, now); }
    case Bind(r) => AcquiredExempts(g, r, now, kind);
    case Heartbeat(ids, owner) =>
      forall i | 0 <= i < |g.leases| && g.leases[i].kind == kind ensures !Late(g.leases[i], ids, owner, now) {
        assert g.leases[i] in g.leases;
      }
    case _ =>
  }

  lemma AcquiredExempts(g: Ledger, r: Request, now: int, kind: Kind)
    requires NoneExempt(g.leases, kind) && (r.kind == kind && r.force ==> HoldsLive(g, r, now))
    ensures NoneExempt(Acquired(g, r, now).0.leases, kind)
  {
    hide Count, Verdict;
    assert NoneExempt(Reconciled(g, now).leases, kind);
  }

  lemma {:induction false} StrictIsFull(leases: seq<Lease>, kind: Kind, scope: Option<string>, now: int)
    requires NoneExempt(leases, kind)
    ensures Count(leases, kind, scope, now, true) == InUse(leases, kind, scope, now)
  {
    if leases != [] { StrictIsFull(leases[..|leases| - 1], kind, scope, now); }
  }

  /** In every run without such a late beat, and in which a session is attached by force only while
      its case holds a live lease for it, the full number of active leases of the kind stays within
      the limit at every later time. */
  lemma {:induction false} PromptRunsStayWithin(limits: Limits, ops: seq<(Op, int)>, now: int, kind: Kind)
    requires Chronological(ops) && (ops != [] ==> Clock(ops) <= now) && limits.ForKind(kind) > 0
    requires forall n | 0 <= n < |ops| :: Prompt(Run(Ledger(limits, [], map[], {}), ops[..n]), ops[n].0, ops[n].1, kind)
    ensures InUse(Run(Ledger(limits, [], map[], {}), ops).leases, kind, None, now) <= limits.ForKind(kind)
  {
    hide Step, Sound, Prompt, NoneExempt, OnePerCase;
    PromptRun(limits, ops, kind);
    StrictIsFull(Run(Ledger(limits, [], map[], {}), ops).leases, kind, None, now);
    LimitsHold(limits, ops, now, kind, "");
  }

  /** And so does the full number of active leases of a scope whose unforced requests carry the same
      limit. */
  lemma {:induction false} PromptScopesStayWithin(limits: Limits, ops: seq<(Op, int)>, now: int, kind: Kind, scope: string, limit: nat)
    requires Chronological(ops) && (ops != [] ==> Clock(ops) <= now) && scope != ""
    requires forall n | 0 <= n < |ops| :: Prompt(Run(Ledger(limits, [], map[], {}), ops[..n]), ops[n].0, ops[n].1, kind)
    requires forall o <- ops :: AsksFor(o.0, kind, scope, limit)
    ensures InUse(Run(Ledger(limits, [], map[], {}), ops).leases, kind, Some(scope), now) <= limit
  {
    hide Step, Prompt, NoneExempt, AsksFor;
    PromptRun(limits, ops, kind);
    StrictIsFull(Run(Ledger(limits, [], map[], {}), ops).leases, kind, Some(scope), now);
    ScopeLimitHolds(limits, ops, now, kind, scope, limit);
  }

  lemma {:induction false} PromptRun(limits: Limits, ops: seq<(Op, int)>, kind: Kind)
    requires forall n | 0 <= n < |ops| :: Prompt(Run(Ledger(limits, [], map[], {}), ops[..n]), ops[n].0, ops[n].1, kind)
    ensures NoneExempt(Run(Ledger(limits, [], map[], {}), ops).leases, kind)
  {
    if ops != [] {
      hide Step, Prompt;
      var n := |ops| - 1;
      var g := Run(Ledger(limits, [], map[], {}), ops[..n]);
      assert forall m | 0 <= m < n :: ops[..n][..m] == ops[..m];
      PromptRun(limits, ops[..n], kind);
      assert Prompt(g, ops[n].0, ops[n].1, kind);
      PromptKeeps(g, ops[n].0, ops[n].1, kind);
    }
  }

  // ------------------------------------------------------------------ renewal

  /** A granted request holds the lease it was told about. */
  lemma GrantIsHeld(g: Ledger, r: Request, t: int)
    requires Acquired(g, r, t).1.Granted?
    requires r.attempt.Some? ==> r.attempt.value !in g.ended
    ensures
      var (first, granted) := Acquired(g, r, t);
      && granted.index < |first.leases| && Mine(first.leases[granted.index], r)
      && first.leases[granted.index].expiresAt == t + g.limits.leaseSeconds
      && Finished(first.leases, first.ended) == {} && first.limits == g.limits
  {
    hide Count, Verdict;
    var (first, granted) := Acquired(g, r, t);
    var clean := Reconciled(g, t);
    forall i | 0 <= i < |clean.leases| ensures Live(clean.leases[i], g.ended) {
      assert i in Finished(g.leases, g.ended) || Live(g.leases[i], g.ended);
    }
    forall i | 0 <= i < |first.leases| ensures Live(first.leases[i], first.ended) {
      if i < |clean.leases| { assert Live(clean.leases[i], g.ended); }
    }
  }

  /** The lease is released or not bound to an attempt that has ended. */
  predicate Live(l: Lease, ended: set<nat>) { Unreleased(l) && l.attempt.Some? ==> l.attempt.value !in ended }

  lemma NothingToReconcile(g: Ledger, now: int)
    requires Finished(g.leases, g.ended) == {}
    ensures Reconciled(g, now) == g
  {
    assert Reconciled(g, now).leases == g.leases;
  }

  lemma FindsMine(leases: seq<Lease>, r: Request, i: nat)
    requires OnePerCase(leases) && i < |leases| && Mine(leases[i], r)
    ensures FindMine(leases, r) == Some(i)
  {
    OnlyOneMine(leases, r, i, FindMine(leases, r).value);
  }

  /** A live lease is renewed in place, whatever the limits and the queue say. */
  lemma HeldIsRenewed(g: Ledger, r: Request, i: nat, now: int)
    requires OnePerCase(g.leases) && Finished(g.leases, g.ended) == {}
    requires i < |g.leases| && Mine(g.leases[i], r) && g.leases[i].expiresAt > now
    ensures Acquired(g, r, now) ==
            (g.(leases := g.leases[i := Renewed(g.leases[i], r, now + g.limits.leaseSeconds)]), Granted(i))
  {
    hide Count, Verdict, Competed, Mine, OnePerCase, Renewed, FindMine, Reconciled, Finished;
    NothingToReconcile(g, now);
    FindsMine(g.leases, r, i);
  }

  /** Acquiring again while the lease is live renews it: the same lease, and no second one, so a
      crash between acquiring and committing never counts twice. */
  lemma AcquireTwice(g: Ledger, r: Request, t: int, now: int)
    requires Sound(g, t) && t <= now < t + g.limits.leaseSeconds
    requires Acquired(g, r, t).1.Granted?
    requires r.attempt.Some? ==> r.attempt.value !in g.ended
    ensures
      var (first, granted) := Acquired(g, r, t);
      var (second, again) := Acquired(first, r, now);
      && again == granted && |second.leases| == |first.leases|
      && Mine(second.leases[again.index], r) && Active(second.leases[again.index], now)
      && (forall j | 0 <= j < |first.leases| && j != again.index :: second.leases[j] == first.leases[j])
  {
    hide Acquired, Count;
    GrantIsHeld(g, r, t);
    AcquiredKeeps(g, r, t, t);
    HeldIsRenewed(Acquired(g, r, t).0, r, Acquired(g, r, t).1.index, now);
  }

  /** The usual course keeps the promise: a slot is taken, and its session is attached, by force and
      for whatever attempt, while the lease is live; that is prompt, and adds no lease. */
  lemma BindingASlotIsPrompt(g: Ledger, r: Request, t: int, now: int, b: Request)
    requires Sound(g, t) && t <= now < t + g.limits.leaseSeconds
    requires Acquired(g, r, t).1.Granted? && (r.attempt.Some? ==> r.attempt.value !in g.ended)
    requires b.kind == r.kind && b.caseId == r.caseId && b.scope == r.scope
    ensures
      var first := Acquired(g, r, t).0;
      && (forall kind: Kind :: Prompt(first, Bind(b), now, kind))
      && |Step(first, Bind(b), now).leases| == |first.leases|
  {
    hide Acquired, Count;
    GrantIsHeld(g, r, t);
    AcquiredKeeps(g, r, t, t);
    var (first, granted) := Acquired(g, r, t);
    NothingToReconcile(first, now);
    FindsMine(first.leases, b, granted.index);
    HeldIsRenewed(first, b, granted.index, now);
  }

  // ------------------------------------------------------------------ first come, first served

  /** After a grant enough slots stay free for everybody who has waited longer; and a case nobody
      has waited longer than is not turned away by the global limit while a slot is free. */
  lemma FirstComeFirstServed(g: Ledger, r: Request, now: int)
    requires !HoldsLive(g, r, now) && !r.force && g.limits.ForKind(r.kind) > 0
    ensures
      var (after, outcome) := Acquired(g, r, now);
      var limit := g.limits.ForKind(r.kind);
      && (outcome.Granted? ==>
            limit - InUse(after.leases, r.kind, None, now) >= |Ahead(g.cases, r.kind, r.caseId)|)
      && (InUse(Arena(g, r, now).leases, r.kind, None, now) < limit && Ahead(g.cases, r.kind, r.caseId) == {} ==>
            !(outcome.Denied? && outcome.denial.scope == "" && outcome.denial.limit == limit))
      && (outcome.Denied? && WaitsGlobally(Label(outcome.denial), r.kind) ==>
            InUse(Arena(g, r, now).leases, r.kind, None, now) >= limit || Ahead(g.cases, r.kind, r.caseId) != {})
  {
    hide Ahead, Label;
    var a := Arena(g, r, now);
    assert Acquired(g, r, now) == Competed(a, r, now);
    var (after, outcome) := Acquired(g, r, now);
    if outcome.Granted? {
      var l := NewLease(r, now + g.limits.leaseSeconds);
      assert (a.leases + [l])[..|a.leases|] == a.leases;
    } else {
      PatternIsExact(outcome.denial, r.kind);
    }
  }

  /** Live cases that have been waiting, for whatever, strictly longer than `id`. */
  function Elders(cases: map<nat, CaseInfo>, id: nat): set<nat> {
    set c <- cases | c != id && !cases[c].terminal && cases[c].waitingSince.Some? && Before(cases[c], Since(cases, id))
  }

  lemma AheadAreElders(cases: map<nat, CaseInfo>, kind: Kind, id: nat)
    ensures Ahead(cases, kind, id) <= Elders(cases, id)
  {}

  predicate Waits(g: Ledger, id: nat) { id in g.cases && g.cases[id].waitingSince.Some? }

  /** A case that was closed while it waited, longer than `id`, is reopened: it is still parked. */
  predicate Reopens(g: Ledger, op: Op, id: nat) {
    && op.CaseChanges? && !op.terminal && op.caseId != id && Waits(g, op.caseId)
    && g.cases[op.caseId].terminal && Before(g.cases[op.caseId], Since(g.cases, id))
  }

  /** While a case keeps waiting, a step puts somebody in front of it exactly by reopening a case
      that had waited longer; whoever is new, or starts to wait, queues behind. */
  lemma StepKeepsElders(g: Ledger, op: Op, now: int, id: nat)
    requires Waits(g, id) && g.cases[id].waitingSince.value <= now && Waits(Step(g, op, now), id)
    ensures Step(g, op, now).cases[id].waitingSince == g.cases[id].waitingSince
    ensures Elders(Step(g, op, now).cases, id) <= Elders(g.cases, id) <==> !Reopens(g, op, id)
  {
    hide Acquired, Label;
    var h := Step(g, op, now);
    match op
    case TakeSlot(r) => LimitsStay(g, r, now);
    case Bind(r) => LimitsStay(g, r, now);
    case CaseChanges(c, terminal) =>
      if Reopens(g, op, id) { assert c in Elders(h.cases, id) && c !in Elders(g.cases, id); }
    case _ =>
  }

  /** As long as a case keeps waiting and no case that had waited longer is reopened, nobody ever
      gets in front of it. */
  lemma {:induction false} NoOvertaking(g: Ledger, ops: seq<(Op, int)>, id: nat, kind: Kind)
    requires Chronological(ops) && forall n | 0 <= n < |ops| :: !Reopens(Run(g, ops[..n]), ops[n].0, id)
    requires Waits(g, id) && forall n | 0 <= n <= |ops| :: Waits(Run(g, ops[..n]), id)
    requires ops != [] ==> g.cases[id].waitingSince.value <= ops[0].1
    ensures Waits(Run(g, ops), id) && Run(g, ops).cases[id].waitingSince == g.cases[id].waitingSince
    ensures Ahead(Run(g, ops).cases, kind, id) <= Elders(Run(g, ops).cases, id) <= Elders(g.cases, id)
  {
    hide Step, Elders, Ahead, Reopens;
    AheadAreElders(Run(g, ops).cases, kind, id);
    if ops != [] {
      var n := |ops| - 1;
      var front := ops[..n];
      forall m | 0 <= m <= n ensures Waits(Run(g, front[..m]), id) && front[..m] == ops[..m] { assert front[..m] == ops[..m]; }
      NoOvertaking(g, front, id, kind);
      assert ops[..n + 1] == ops;
      assert Waits(Run(g, ops), id) by { assert Waits(Run(g, ops[..n + 1]), id); }
      StepKeepsElders(Run(g, front), ops[n].0, ops[n].1, id);
    }
  }

  // ------------------------------------------------------------------ the limit of the promise

  const ONE_SLOT := Limits(1, 1, 1, 10)
  const FIRST := Request(Triage, 1, "", None, None, false, "a")
  const SECOND := Request(Triage, 2, "", None, None, false, "b")
  const PAUSED := Lease(Triage, "", 1, None, "a", 10, None, false)
  const LATER := Lease(Triage, "", 2, None, "b", 30, None, false)

  function With(leases: seq<Lease>): Ledger { Ledger(ONE_SLOT, leases, map[], {}) }

  lemma CountPair(a: Lease, b: Lease, kind: Kind, now: int)
    ensures InUse([a], kind, None, now) == if Counts(a, kind, None, now, false) then 1 else 0
    ensures InUse([a, b], kind, None, now) ==
            InUse([a], kind, None, now) + (if Counts(b, kind, None, now, false) then 1 else 0)
  {
    var one, two := [a], [a, b];
    assert one[..|one| - 1] == [] && two[..|two| - 1] == one;
    assert Count([], kind, None, now, false) == 0;
  }

  lemma FirstIsGranted()
    ensures Step(With([]), Bind(FIRST), 0) == With([PAUSED])
  {
    assert Reconciled(With([]), 0).leases == [];
  }

  lemma SecondIsGranted()
    ensures Step(With([PAUSED]), Bind(SECOND), 20) == With([PAUSED, LATER])
  {
    assert Reconciled(With([PAUSED]), 20).leases == [PAUSED];
    assert Ahead(map[], Triage, 2) == {};
    CountPair(PAUSED, LATER, Triage, 20);
    assert Verdict(With([PAUSED]), SECOND, 20).None?;
    assert Competed(With([PAUSED]), SECOND, 20).0.leases == [PAUSED] + [LATER];
  }

  const REVIVED := PAUSED.(expiresAt := 31, exempt := true)

  lemma BeatRevives()
    ensures Step(With([PAUSED, LATER]), Op.Heartbeat({1}, "a"), 21) == With([REVIVED, LATER])
    ensures InUse([REVIVED, LATER], Triage, None, 21) == 2
  {
    assert Beat([PAUSED, LATER], {1}, "a", 21, 31) == [REVIVED, LATER];
    CountPair(REVIVED, LATER, Triage, 21);
  }

  /** A late heartbeat can push the active leases over the limit: the first holder pauses past its
      expiry, a second case is granted the only slot, and then the first one beats. */
  lemma LateBeatOverruns()
    ensures
      var g := Run(With([]), [(Bind(FIRST), 0), (Bind(SECOND), 20), (Op.Heartbeat({1}, "a"), 21)]);
      InUse(g.leases, Triage, None, 21) == 2 > ONE_SLOT.ForKind(Triage)
  {
    hide Step, InUse;
    var ops: seq<(Op, int)> := [(Bind(FIRST), 0), (Bind(SECOND), 20), (Op.Heartbeat({1}, "a"), 21)];
    FirstIsGranted();
    SecondIsGranted();
    BeatRevives();
    var none: seq<(Op, int)> := [];
    assert ops[..1][..0] == none && ops[..2][..1] == ops[..1] && ops[..3] == ops && ops[..3][..2] == ops[..2];
    assert Run(With([]), ops[..1]) == With([PAUSED]);
    assert Run(With([]), ops[..2]) == With([PAUSED, LATER]);
  }
}

/** What the result store means, for requests served one at a time: it answers from the newest
    results that are not too old, and whose fingerprint a replay was computed for. */
module ResultHistory {
  import opened Wrappers
  import opened ResultStore

  // ------------------------------------------------------------------ dictionaries

  lemma {:induction false} BoundToAppends(prints: seq<Binding>, b: Binding, id: string)
    ensures BoundTo(prints + [b], id) ==
            if BoundTo(prints, id).Some? then BoundTo(prints, id) else if b.id == id then Some(b.fingerprint) else None
  {
    if prints != [] {
      assert (prints + [b])[1..] == prints[1..] + [b];
      BoundToAppends(prints[1..], b, id);
    } else {
      assert (prints + [b])[1..] == [];
    }
  }

  lemma {:induction false} ResultOfFinds(done: seq<Entry>, id: string)
    ensures ResultOf(done, id).None? <==> forall i | 0 <= i < |done| :: done[i].id != id
    ensures ResultOf(done, id).Some? ==> exists i | 0 <= i < |done| :: done[i].id == id && done[i].response == ResultOf(done, id).value
  {
    if done != [] {
      if done[0].id == id {
        assert done[0].response == ResultOf(done, id).value;
      } else {
        ResultOfFinds(done[1..], id);
        assert forall i | 1 <= i < |done| :: done[i] == done[1..][i - 1];
      }
    }
  }

  lemma {:induction false} StoredAppends(done: seq<Entry>, e: Entry)
    requires forall i | 0 <= i < |done| :: done[i].id != e.id
    ensures Stored(done, e) == done + [e]
  {
    if done != [] { StoredAppends(done[1..], e); }
  }

  // ------------------------------------------------------------------ the simple history

  /** Result `i` of a history still answers at `now`: one of the newest 512, and not too old. */
  predicate Alive(h: seq<Entry>, i: nat, now: int)
    requires i < |h|
  {
    |h| - i <= MAX_ENTRIES && !Expired(h[i], now)
  }

  /** The answer the history gives: the newest live result of `id`, looking at the first `n`. */
  function Newest(h: seq<Entry>, id: string, now: int, n: nat): Option<Response>
    requires n <= |h|
  {
    if n == 0 then None
    else if h[n - 1].id == id && Alive(h, n - 1, now) then Some(h[n - 1].response)
    else Newest(h, id, now, n - 1)
  }

  ghost predicate Sorted(h: seq<Entry>) { forall i, j | 0 <= i < j < |h| :: h[i].stamp <= h[j].stamp }

  /** The store holds the end of the history: what it dropped was dead, and no id is kept twice. */
  ghost predicate Holds(s: Store, h: seq<Entry>, k: nat, now: int) {
    && k <= |h| && s.done == h[k..] && |h| - k <= MAX_ENTRIES
    && (forall i | 0 <= i < k :: !Alive(h, i, now))
    && (forall i, j | k <= i < j < |h| :: h[i].id != h[j].id)
    && Sorted(h) && (forall i | 0 <= i < |h| :: h[i].stamp <= now)
  }

  /** Where an eviction stops. */
  function Horizon(h: seq<Entry>, k: nat, now: int): (r: nat)
    requires k <= |h|
    ensures k <= r <= |h|
    decreases |h| - k
  {
    if k < |h| && (Expired(h[k], now) || |h| - k > MAX_ENTRIES) then Horizon(h, k + 1, now) else k
  }

  lemma {:induction false} EvictedTo(s: Store, h: seq<Entry>, k: nat, now: int)
    requires k <= |h| && s.done == h[k..]
    ensures Evicted(s, now).done == h[Horizon(h, k, now)..] && Evicted(s, now).inflight == s.inflight
    ensures forall i | k <= i < Horizon(h, k, now) :: Expired(h[i], now) || |h| - i > MAX_ENTRIES
    ensures var r := Horizon(h, k, now); r < |h| ==> !Expired(h[r], now) && |h| - r <= MAX_ENTRIES
    decreases |h| - k
  {
    if k < |h| && (Expired(h[k], now) || |h| - k > MAX_ENTRIES) {
      assert h[k..][1..] == h[k + 1..];
      EvictedTo(s.(done := s.done[1..], prints := Unbind(s.prints, s.done[0].id)), h, k + 1, now);
    }
  }

  /** After an eviction exactly the live results are left. */
  lemma EvictionIsExact(s: Store, h: seq<Entry>, k: nat, t: int, now: int)
    requires Holds(s, h, k, t) && t <= now
    ensures Holds(Evicted(s, now), h, Horizon(h, k, now), now)
    ensures forall i | 0 <= i < |h| :: Alive(h, i, now) <==> Horizon(h, k, now) <= i
  {
    EvictedTo(s, h, k, now);
    var r := Horizon(h, k, now);
    forall i | 0 <= i < |h| ensures Alive(h, i, now) <==> r <= i {
      if i < k {
        assert !Alive(h, i, t);
      } else if r <= i {
        assert h[r].stamp <= h[i].stamp by { if r < i { assert Sorted(h); } }
      }
    }
  }

  lemma {:induction false} LookupIsNewest(h: seq<Entry>, r: nat, id: string, now: int, n: nat)
    requires r <= n <= |h| && (forall i | 0 <= i < |h| :: Alive(h, i, now) <==> r <= i)
    requires forall i, j | r <= i < j < |h| :: h[i].id != h[j].id
    ensures ResultOf(h[r..n], id) == Newest(h, id, now, n)
  {
    if n > r {
      LookupIsNewest(h, r, id, now, n - 1);
      var front, e := h[r..n - 1], h[n - 1];
      assert h[r..n] == front + [e];
      ResultOfAppends(front, e, id);
      if e.id == id { ResultOfFinds(front, id); }
    } else {
      NothingAlive(h, id, now, n);
    }
  }

  lemma {:induction false} NothingAlive(h: seq<Entry>, id: string, now: int, n: nat)
    requires n <= |h| && forall i | 0 <= i < n :: !Alive(h, i, now)
    ensures Newest(h, id, now, n) == None
  {
    if n > 0 { NothingAlive(h, id, now, n - 1); }
  }

  lemma {:induction false} ResultOfAppends(done: seq<Entry>, e: Entry, id: string)
    ensures ResultOf(done + [e], id) ==
            if ResultOf(done, id).Some? then ResultOf(done, id) else if e.id == id then Some(e.response) else None
  {
    if done != [] {
      assert (done + [e])[1..] == done[1..] + [e];
      ResultOfAppends(done[1..], e, id);
    } else {
      assert (done + [e])[1..] == [];
    }
  }

  /** `get` answers exactly from the newest 512 results that are not older than the TTL. */
  lemma GetIsNewest(s: Store, h: seq<Entry>, k: nat, t: int, now: int, id: string)
    requires Holds(s, h, k, t) && t <= now
    ensures ResultOf(Evicted(s, now).done, id) == Newest(h, id, now, |h|)
  {
    EvictionIsExact(s, h, k, t, now);
    EvictedTo(s, h, k, now);
    LookupIsNewest(h, Horizon(h, k, now), id, now, |h|);
    assert h[Horizon(h, k, now)..|h|] == h[Horizon(h, k, now)..];
  }

  // ------------------------------------------------------------------ runs

  predicate InTime(r: Request, work: Work, t: int) { t <= r.at && (work.Ran? ==> r.at <= work.at) }

  function EndOf(r: Request, work: Work): int { if work.Ran? then work.at else r.at }

  function HistoryAfter(h: seq<Entry>, r: Request, work: Work, answer: Answer): seq<Entry> {
    if answer.Computed? && work.Ran? then h + [Entry(r.id, work.at, answer.response)] else h
  }

  /** Serving one request adds its result, if any, to the history the store holds. */
  lemma ServingHolds(s: Store, h: seq<Entry>, k: nat, t: int, r: Request, work: Work)
    requires Holds(s, h, k, t) && s.inflight == {} && InTime(r, work, t)
    ensures
      var (after, answer) := Served(s, r, work);
      && after.inflight == {}
      && exists j :: Holds(after, HistoryAfter(h, r, work, answer), j, EndOf(r, work))
  {
    var (bound, fits) := Bound(s, r.id, r.fingerprint);
    var (after, answer) := Served(s, r, work);
    HoldsLater(bound, h, k, t, r.at);
    if !fits {
      HoldsLater(after, h, k, t, EndOf(r, work));
      assert HistoryAfter(h, r, work, answer) == h && Holds(after, h, k, EndOf(r, work));
    } else {
      var swept := Evicted(bound, r.at);
      EvictionIsExact(bound, h, k, r.at, r.at);
      EvictedTo(bound, h, k, r.at);
      var j := Horizon(h, k, r.at);
      if answer.Computed? {
        ResultOfFinds(swept.done, r.id);
        FinishHolds(swept.(inflight := swept.inflight + {r.id}), h, j, r.at, r.id, answer.response, work.at);
        var g := h + [Entry(r.id, work.at, answer.response)];
        assert HistoryAfter(h, r, work, answer) == g && Holds(after, g, Horizon(g, j, work.at), EndOf(r, work));
      } else {
        assert after.inflight == {} && HistoryAfter(h, r, work, answer) == h;
        assert Holds(after, h, j, r.at);
        HoldsLater(after, h, j, r.at, EndOf(r, work));
      }
    }
  }

  lemma HoldsLater(s: Store, h: seq<Entry>, k: nat, t: int, now: int)
    requires Holds(s, h, k, t) && t <= now
    ensures Holds(s, h, k, now)
  {
    forall i | 0 <= i < k ensures !Alive(h, i, now) { assert !Alive(h, i, t); }
  }

  lemma {:induction false} HorizonKeepsFresh(h: seq<Entry>, k: nat, now: int)
    requires k < |h| && !Expired(h[|h| - 1], now)
    ensures Horizon(h, k, now) < |h|
    decreases |h| - k
  {
    if k + 1 < |h| { HorizonKeepsFresh(h, k + 1, now); }
  }

  lemma FinishHolds(s: Store, h: seq<Entry>, k: nat, t: int, id: string, response: Response, now: int)
    requires Holds(s, h, k, t) && t <= now && s.inflight == {id}
    requires forall i | 0 <= i < |s.done| :: s.done[i].id != id
    ensures
      var g := h + [Entry(id, now, response)];
      && Holds(Finished(s, id, response, now), g, Horizon(g, k, now), now)
      && Finished(s, id, response, now).inflight == {}
  {
    hide Evicted, Horizon;
    var e := Entry(id, now, response);
    var g := h + [e];
    StoredAppends(s.done, e);
    var stored := s.(inflight := s.inflight - {id}, done := Stored(s.done, e));
    assert g[k..] == h[k..] + [e];
    EvictedTo(stored, g, k, now);
    var r := Horizon(g, k, now);
    forall i | 0 <= i < r ensures !Alive(g, i, now) {
      if i < k { assert !Alive(h, i, t); }
    }
    forall i | r <= i < |h| ensures g[i].id != id { assert g[i] == s.done[i - k]; }
  }

  /** Requests with what became of them, served one after the other. */
  function Run(s: Store, ops: seq<(Request, Work)>): Store {
    if ops == [] then s else Served(Run(s, ops[..|ops| - 1]), ops[|ops| - 1].0, ops[|ops| - 1].1).0
  }

  function History(s: Store, ops: seq<(Request, Work)>): seq<Entry> {
    if ops == [] then []
    else
      var front, last := ops[..|ops| - 1], ops[|ops| - 1];
      HistoryAfter(History(s, front), last.0, last.1, Served(Run(s, front), last.0, last.1).1)
  }

  function Ends(ops: seq<(Request, Work)>, start: int): int {
    if ops == [] then start else EndOf(ops[|ops| - 1].0, ops[|ops| - 1].1)
  }

  /** The clock never runs backwards, neither between requests nor while one is served. */
  predicate Timely(ops: seq<(Request, Work)>, start: int) {
    ops == [] ||
    (Timely(ops[..|ops| - 1], start) && InTime(ops[|ops| - 1].0, ops[|ops| - 1].1, Ends(ops[..|ops| - 1], start)))
  }

  const EMPTY := Store([], [], {})

  lemma {:induction false} RunHolds(ops: seq<(Request, Work)>, start: int)
    requires Timely(ops, start)
    ensures Run(EMPTY, ops).inflight == {}
    ensures exists k :: Holds(Run(EMPTY, ops), History(EMPTY, ops), k, Ends(ops, start))
  {
    if ops == [] {
      assert Holds(Run(EMPTY, ops), History(EMPTY, ops), 0, Ends(ops, start));
    } else {
      hide Served;
      var front, last := ops[..|ops| - 1], ops[|ops| - 1];
      RunHolds(front, start);
      var k :| Holds(Run(EMPTY, front), History(EMPTY, front), k, Ends(front, start));
      ServingHolds(Run(EMPTY, front), History(EMPTY, front), k, Ends(front, start), last.0, last.1);
      var (after, answer) := Served(Run(EMPTY, front), last.0, last.1);
      var j :| Holds(after, HistoryAfter(History(EMPTY, front), last.0, last.1, answer), j, EndOf(last.0, last.1));
      assert Holds(Run(EMPTY, ops), History(EMPTY, ops), j, Ends(ops, start));
    }
  }

  /** The store refines its history: after any requests, served one at a time, `get` answers at any
      later time exactly with the newest of the last 512 results that is not too old. */
  lemma StoreRefinesHistory(ops: seq<(Request, Work)>, start: int, id: string, now: int)
    requires Timely(ops, start) && Ends(ops, start) <= now
    ensures
      var h := History(EMPTY, ops);
      ResultOf(Evicted(Run(EMPTY, ops), now).done, id) == Newest(h, id, now, |h|)
  {
    RunHolds(ops, start);
    var h := History(EMPTY, ops);
    var k :| Holds(Run(EMPTY, ops), h, k, Ends(ops, start));
    GetIsNewest(Run(EMPTY, ops), h, k, Ends(ops, start), now, id);
  }

  // ------------------------------------------------------------------ fingerprints

  /** Every stored result is bound to the fingerprint it was computed for. */
  ghost predicate Faithful(s: Store) {
    Distinct(s.prints) && forall i | 0 <= i < |s.done| ::
      BoundTo(s.prints, s.done[i].id) == Some(s.done[i].response.computedFor)
  }

  /** The result of `id` is still stored, but it has expired: the next eviction takes it away,
      and the binding of `id` with it. */
  predicate Stale(s: Store, id: string, now: int) { exists e <- s.done :: e.id == id && Expired(e, now) }

  /** Evicting keeps every binding but those of the results that go. */
  lemma {:induction false} EvictedBindings(s: Store, h: seq<Entry>, k: nat, now: int, id: string)
    requires Distinct(s.prints) && k <= |h| && s.done == h[k..]
    ensures Distinct(Evicted(s, now).prints)
    ensures
      var r := Horizon(h, k, now);
      BoundTo(Evicted(s, now).prints, id) ==
      if exists i | k <= i < r :: h[i].id == id then None else BoundTo(s.prints, id)
    decreases |h| - k
  {
    if k < |h| && (Expired(h[k], now) || |h| - k > MAX_ENTRIES) {
      assert h[k..][1..] == h[k + 1..];
      UnbindRemoves(s.prints, h[k].id, id);
      EvictedBindings(s.(done := s.done[1..], prints := Unbind(s.prints, s.done[0].id)), h, k + 1, now, id);
    }
  }

  lemma EvictionIsFaithful(s: Store, h: seq<Entry>, k: nat, t: int, now: int)
    requires Faithful(s) && Holds(s, h, k, t) && t <= now
    ensures Faithful(Evicted(s, now))
  {
    EvictionIsExact(s, h, k, t, now);
    EvictedTo(s, h, k, now);
    var u := Evicted(s, now);
    EvictedBindings(s, h, k, now, "");
    forall i | 0 <= i < |u.done| ensures BoundTo(u.prints, u.done[i].id) == Some(u.done[i].response.computedFor) {
      var j := Horizon(h, k, now) - k + i;
      assert u.done[i] == s.done[j];
      EvictedBindings(s, h, k, now, u.done[i].id);
    }
  }

  lemma BindingIsFaithful(s: Store, r: Request)
    requires Faithful(s) && HasRoom(s, r.id)
    ensures Faithful(Bound(s, r.id, r.fingerprint).0)
    ensures Bound(s, r.id, r.fingerprint).1 ==>
              BoundTo(Bound(s, r.id, r.fingerprint).0.prints, r.id) == Some(r.fingerprint)
  {
    BoundToFinds(s.prints, r.id);
    var t := Bound(s, r.id, r.fingerprint).0;
    forall i | 0 <= i < |s.done| ensures BoundTo(t.prints, s.done[i].id) == Some(s.done[i].response.computedFor) {
      BoundToAppends(s.prints, Binding(r.id, r.fingerprint), s.done[i].id);
    }
    BoundToAppends(s.prints, Binding(r.id, r.fingerprint), r.id);
  }

  /** Binding `id` drops no other binding. */
  predicate HasRoom(s: Store, id: string) { |s.prints| < 2 * MAX_ENTRIES || BoundTo(s.prints, id).Some? }

  /** The request is computed again while the expired result of its id is still stored: the sweep
      takes away the binding that was just checked, and the new result is stored without one. */
  predicate StaleReuse(s: Store, r: Request, work: Work) {
    work.Ran? && BoundTo(s.prints, r.id) == Some(r.fingerprint) && Stale(s, r.id, r.at)
  }

  /** Result `j` of the store is still there once the request has been served. */
  predicate Outlives(s: Store, j: nat, r: Request, work: Work)
    requires j < |s.done|
  {
    !Expired(s.done[j], EndOf(r, work)) && |s.done| - j + (if work.Ran? then 1 else 0) <= MAX_ENTRIES
  }

  /** A new id finds the dictionary of fingerprints full: the oldest goes, although its result stays. */
  predicate DropsLive(s: Store, r: Request, work: Work) {
    && !HasRoom(s, r.id)
    && exists j | 0 <= j < |s.done| :: s.done[j].id == s.prints[0].id && Outlives(s, j, r, work)
  }

  /** Serving a request keeps every stored result bound to its fingerprint exactly unless it reuses
      a stale id, or a new id pushes out the oldest binding while its result is still stored. */
  lemma FaithIsKeptExactly(s: Store, h: seq<Entry>, k: nat, t: int, r: Request, work: Work)
    requires Faithful(s) && Holds(s, h, k, t) && s.inflight == {} && InTime(r, work, t)
    requires |s.prints| <= 2 * MAX_ENTRIES
    ensures Faithful(Served(s, r, work).0) <==> !StaleReuse(s, r, work) && !DropsLive(s, r, work)
  {
    hide Served, Faithful, Holds, Stale;
    if HasRoom(s, r.id) {
      FaithWithRoom(s, h, k, t, r, work);
      ReuseIsComputed(s, h, k, t, r, work);
    } else {
      FaithWhenFull(s, h, k, t, r, work);
    }
  }

  lemma ReuseIsComputed(s: Store, h: seq<Entry>, k: nat, t: int, r: Request, work: Work)
    requires Faithful(s) && Holds(s, h, k, t) && s.inflight == {} && InTime(r, work, t) && HasRoom(s, r.id)
    ensures StaleReuse(s, r, work) <==> Served(s, r, work).1.Computed? && Stale(s, r.id, r.at)
  {
    var (bound, fits) := Bound(s, r.id, r.fingerprint);
    EvictedTo(bound, h, k, r.at);
    HoldsLater(bound, h, k, t, r.at);
    EvictionIsExact(bound, h, k, r.at, r.at);
    StaleIsSwept(s, h, k, t, r.id, r.at);
    var swept := Evicted(bound, r.at);
    ResultOfFinds(swept.done, r.id);
    if Stale(s, r.id, r.at) {
      var i :| k <= i < Horizon(h, k, r.at) && h[i].id == r.id;
      forall j | 0 <= j < |swept.done| ensures swept.done[j].id != r.id {
        assert swept.done[j] == h[Horizon(h, k, r.at) + j];
      }
      assert s.done[i - k] == h[i];
    }
  }

  lemma FaithWithRoom(s: Store, h: seq<Entry>, k: nat, t: int, r: Request, work: Work)
    requires Faithful(s) && Holds(s, h, k, t) && s.inflight == {} && InTime(r, work, t) && HasRoom(s, r.id)
    ensures
      var (after, answer) := Served(s, r, work);
      Faithful(after) <==> !(answer.Computed? && Stale(s, r.id, r.at))
  {
    var (bound, fits) := Bound(s, r.id, r.fingerprint);
    var (after, answer) := Served(s, r, work);
    BindingIsFaithful(s, r);
    HoldsLater(bound, h, k, t, r.at);
    if fits {
      var swept := Evicted(bound, r.at);
      EvictionIsFaithful(bound, h, k, r.at, r.at);
      EvictionIsExact(bound, h, k, r.at, r.at);
      EvictedTo(bound, h, k, r.at);
      if answer.Failed? {
        AbortIsFaithful(swept, r.id);
      } else if answer.Computed? {
        ResultOfFinds(swept.done, r.id);
        EvictedBindings(bound, h, k, r.at, r.id);
        StaleIsSwept(s, h, k, t, r.id, r.at);
        FinishFaith(swept, h, Horizon(h, k, r.at), r.at, r, answer.response, work.at);
      }
    }
  }

  // ------------------------------------------------------------------ when the fingerprints are full

  lemma {:induction false} BoundToDropsFirst(prints: seq<Binding>, b: Binding, id: string)
    requires Distinct(prints) && prints != [] && BoundTo(prints, b.id).None?
    ensures Distinct(prints[1..] + [b])
    ensures BoundTo(prints[1..] + [b], id) ==
            if id == prints[0].id then None else if id == b.id then Some(b.fingerprint) else BoundTo(prints, id)
  {
    BoundToFinds(prints, b.id);
    BoundToFinds(prints[1..], prints[0].id);
    BoundToAppends(prints[1..], b, id);
  }

  /** What binding a new id leaves of a full dictionary. */
  lemma BoundWhenFull(s: Store, r: Request)
    requires Faithful(s) && !HasRoom(s, r.id) && |s.prints| == 2 * MAX_ENTRIES
    ensures Bound(s, r.id, r.fingerprint) == (s.(prints := s.prints[1..] + [Binding(r.id, r.fingerprint)]), true)
  {
    var more := s.prints + [Binding(r.id, r.fingerprint)];
    assert more[1..] == s.prints[1..] + [Binding(r.id, r.fingerprint)];
    assert DropOldest(more) == DropOldest(more[1..]) == more[1..];
  }

  /** An unbound id has no result stored. */
  lemma NewIdIsNotStored(s: Store, h: seq<Entry>, k: nat, r: Request)
    requires Faithful(s) && k <= |h| && s.done == h[k..] && BoundTo(s.prints, r.id).None? && s.prints != []
    ensures
      var swept := Evicted(s.(prints := s.prints[1..] + [Binding(r.id, r.fingerprint)]), r.at);
      (forall i | 0 <= i < |swept.done| :: swept.done[i].id != r.id) && ResultOf(swept.done, r.id).None?
  {
    var bound := s.(prints := s.prints[1..] + [Binding(r.id, r.fingerprint)]);
    var swept := Evicted(bound, r.at);
    EvictedTo(bound, h, k, r.at);
    forall i | 0 <= i < |swept.done| ensures swept.done[i].id != r.id {
      assert swept.done[i] == s.done[Horizon(h, k, r.at) - k + i];
    }
    ResultOfFinds(swept.done, r.id);
  }

  /** A replay answers with a result that was computed for the same fingerprint. */
  lemma ReplaysAreFaithful(s: Store, h: seq<Entry>, k: nat, t: int, r: Request, work: Work)
    requires Faithful(s) && Holds(s, h, k, t) && t <= r.at && |s.prints| <= 2 * MAX_ENTRIES
    ensures Served(s, r, work).1.Replayed? ==> Served(s, r, work).1.response.computedFor == r.fingerprint
  {
    var (bound, fits) := Bound(s, r.id, r.fingerprint);
    if !HasRoom(s, r.id) {
      BoundWhenFull(s, r);
      NewIdIsNotStored(s, h, k, r);
    } else if Served(s, r, work).1.Replayed? {
      EvictedTo(bound, h, k, r.at);
      var swept := Evicted(bound, r.at);
      ResultOfFinds(swept.done, r.id);
      var i :| 0 <= i < |swept.done| && swept.done[i].id == r.id && swept.done[i].response == ResultOf(swept.done, r.id).value;
      var j := Horizon(h, k, r.at) - k + i;
      assert s.done[j] == swept.done[i];
    }
  }

  /** An unbound id has no result stored, so its request is served as a new one. */
  lemma ServedAsNew(s: Store, h: seq<Entry>, k: nat, t: int, r: Request, work: Work)
    requires Faithful(s) && Holds(s, h, k, t) && s.inflight == {} && InTime(r, work, t)
    requires !HasRoom(s, r.id) && |s.prints| == 2 * MAX_ENTRIES
    ensures
      var bound := s.(prints := s.prints[1..] + [Binding(r.id, r.fingerprint)]);
      var swept := Evicted(bound, r.at);
      && (forall i | 0 <= i < |swept.done| :: swept.done[i].id != r.id)
      && Served(s, r, work).0 == match work
                                 case Rejected => swept
                                 case Raised => Aborted(swept.(inflight := swept.inflight + {r.id}), r.id)
                                 case Ran(verdict, at) =>
                                   Finished(swept.(inflight := swept.inflight + {r.id}), r.id, Response(r.fingerprint, verdict), at)
  {
    BoundWhenFull(s, r);
    NewIdIsNotStored(s, h, k, r);
    EvictedTo(s.(prints := s.prints[1..] + [Binding(r.id, r.fingerprint)]), h, k, r.at);
  }

  /** The results of `s` that are left are bound as in `prints`: then only the dropped id decides. */
  lemma OnlyTheDropped(s: Store, after: Store, r: Request, own: seq<Entry>, from: nat)
    requires Faithful(s) && s.prints != [] && BoundTo(s.prints, r.id).None? && from <= |s.done| && |own| <= 1
    requires after.done == s.done[from..] + own && Distinct(after.prints)
    requires forall e <- own :: e.id == r.id && e.response.computedFor == r.fingerprint
    requires forall i | from <= i < |s.done| ::
               BoundTo(after.prints, s.done[i].id) ==
               if s.done[i].id == s.prints[0].id then None else BoundTo(s.prints, s.done[i].id)
    requires own != [] ==> BoundTo(after.prints, r.id) == Some(r.fingerprint)
    ensures Faithful(after) <==> forall i | from <= i < |s.done| :: s.done[i].id != s.prints[0].id
  {
    if i :| from <= i < |s.done| && s.done[i].id == s.prints[0].id {
      assert after.done[i - from] == s.done[i];
    } else {
      forall j | 0 <= j < |after.done| ensures BoundTo(after.prints, after.done[j].id) == Some(after.done[j].response.computedFor) {
        if j < |s.done| - from { assert after.done[j] == s.done[from + j]; } else { assert after.done[j] in own; }
      }
    }
  }

  lemma FaithWhenFull(s: Store, h: seq<Entry>, k: nat, t: int, r: Request, work: Work)
    requires Faithful(s) && Holds(s, h, k, t) && s.inflight == {} && InTime(r, work, t)
    requires !HasRoom(s, r.id) && |s.prints| <= 2 * MAX_ENTRIES
    ensures Faithful(Served(s, r, work).0) <==> !StaleReuse(s, r, work) && !DropsLive(s, r, work)
  {
    ServedAsNew(s, h, k, t, r, work);
    BoundToDropsFirst(s.prints, Binding(r.id, r.fingerprint), r.id);
    match work
    case Ran(verdict, at) => FullAndRan(s, h, k, t, r, verdict, at);
    case _ => FullAndNotRan(s, h, k, t, r, work);
  }

  lemma FullAndNotRan(s: Store, h: seq<Entry>, k: nat, t: int, r: Request, work: Work)
    requires Faithful(s) && Holds(s, h, k, t) && s.inflight == {} && InTime(r, work, t) && !work.Ran?
    requires !HasRoom(s, r.id) && |s.prints| == 2 * MAX_ENTRIES
    ensures Faithful(Served(s, r, work).0) <==> !DropsLive(s, r, work)
  {
    hide Evicted, Unbind, BoundTo, Outlives;
    var bound := s.(prints := s.prints[1..] + [Binding(r.id, r.fingerprint)]);
    var swept := Evicted(bound, r.at);
    ServedAsNew(s, h, k, t, r, work);
    var after := Served(s, r, work).0;
    BoundToDropsFirst(s.prints, Binding(r.id, r.fingerprint), r.id);
    EvictedTo(bound, h, k, r.at);
    EvictedBindings(bound, h, k, r.at, r.id);
    UnbindRemoves(swept.prints, r.id, "");
    var from := Horizon(h, k, r.at) - k;
    assert after.done == s.done[from..] + [];
    forall i | from <= i < |s.done|
      ensures BoundTo(after.prints, s.done[i].id) ==
              if s.done[i].id == s.prints[0].id then None else BoundTo(s.prints, s.done[i].id)
    {
      LeftBinding(s, h, k, r, r.at, i);
      UnbindRemoves(swept.prints, r.id, s.done[i].id);
    }
    OnlyTheDropped(s, after, r, [], from);
    OutlivesTheSweep(s, h, k, t, r, work);
  }

  /** Without a result of its own, a request leaves exactly the results its sweep leaves. */
  lemma OutlivesTheSweep(s: Store, h: seq<Entry>, k: nat, t: int, r: Request, work: Work)
    requires Holds(s, h, k, t) && InTime(r, work, t) && !work.Ran?
    ensures forall i | 0 <= i < |s.done| :: Outlives(s, i, r, work) <==> Horizon(h, k, r.at) - k <= i
  {
    HoldsLater(s, h, k, t, r.at);
    EvictionIsExact(s, h, k, r.at, r.at);
    forall i | 0 <= i < |s.done| ensures Outlives(s, i, r, work) <==> Horizon(h, k, r.at) - k <= i {
      assert h[k + i] == s.done[i];
      assert Alive(h, k + i, r.at) <==> Horizon(h, k, r.at) <= k + i;
    }
  }

  /** A result that the sweep leaves keeps its binding, unless it was the one that was dropped. */
  lemma LeftBinding(s: Store, h: seq<Entry>, k: nat, r: Request, now: int, i: nat)
    requires Faithful(s) && k <= |h| && s.done == h[k..] && s.prints != [] && BoundTo(s.prints, r.id).None?
    requires forall i, j | k <= i < j < |h| :: h[i].id != h[j].id
    requires Horizon(h, k, now) - k <= i < |s.done|
    ensures
      var bound := s.(prints := s.prints[1..] + [Binding(r.id, r.fingerprint)]);
      && s.done[i].id != r.id
      && BoundTo(Evicted(bound, now).prints, s.done[i].id) ==
         if s.done[i].id == s.prints[0].id then None else BoundTo(s.prints, s.done[i].id)
  {
    var bound := s.(prints := s.prints[1..] + [Binding(r.id, r.fingerprint)]);
    var id := s.done[i].id;
    assert s.done[i] == h[k + i];
    BoundToDropsFirst(s.prints, Binding(r.id, r.fingerprint), id);
    EvictedBindings(bound, h, k, now, id);
  }

  lemma FullAndRan(s: Store, h: seq<Entry>, k: nat, t: int, r: Request, verdict: string, at: int)
    requires Faithful(s) && Holds(s, h, k, t) && s.inflight == {} && InTime(r, Ran(verdict, at), t)
    requires !HasRoom(s, r.id) && |s.prints| == 2 * MAX_ENTRIES
    ensures Faithful(Served(s, r, Ran(verdict, at)).0) <==> !DropsLive(s, r, Ran(verdict, at))
  {
    var work := Ran(verdict, at);
    var e := Entry(r.id, at, Response(r.fingerprint, verdict));
    var from := Horizon(h + [e], Horizon(h, k, r.at), at) - k;
    RanLeaves(s, h, k, t, r, verdict, at);
    FullBindings(s, h, k, t, r, e);
    FinalHorizon(s, h, k, t, r, e);
    forall i | 0 <= i < |s.done| ensures Outlives(s, i, r, work) <==> from <= i {
      assert h[k + i] == s.done[i] == (h + [e])[k + i];
      assert Alive(h + [e], k + i, at) <==> from <= i;
    }
    hide Served, Holds, Distinct;
    OnlyTheDropped(s, Served(s, r, work).0, r, [e], from);
  }

  /** The store that a new id with a result leaves. */
  lemma RanLeaves(s: Store, h: seq<Entry>, k: nat, t: int, r: Request, verdict: string, at: int)
    requires Faithful(s) && Holds(s, h, k, t) && s.inflight == {} && InTime(r, Ran(verdict, at), t)
    requires !HasRoom(s, r.id) && |s.prints| == 2 * MAX_ENTRIES
    ensures
      var e := Entry(r.id, at, Response(r.fingerprint, verdict));
      var swept := Evicted(s.(prints := s.prints[1..] + [Binding(r.id, r.fingerprint)]), r.at);
      var after := Served(s, r, Ran(verdict, at)).0;
      var from := Horizon(h + [e], Horizon(h, k, r.at), at) - k;
      after == Evicted(Storing(swept, e), at) && from <= |s.done| && after.done == s.done[from..] + [e]
  {
    hide Faithful, Holds, Served, HasRoom, Evicted, Horizon;
    ServedAsNew(s, h, k, t, r, Ran(verdict, at));
    DistinctTail(s, h, k, t);
    var e := Entry(r.id, at, Response(r.fingerprint, verdict));
    var bound := s.(prints := s.prints[1..] + [Binding(r.id, r.fingerprint)]);
    var swept := Evicted(bound, r.at);
    EvictedTo(bound, h, k, r.at);
    StoredAppends(swept.done, e);
    assert swept.inflight + {r.id} - {r.id} == swept.inflight;
    EvictedTwice(bound, h, k, r.at, e);
  }

  lemma EvictedTwice(s: Store, h: seq<Entry>, k: nat, t: int, e: Entry)
    requires k <= |h| && s.done == h[k..]
    ensures
      var g := h + [e];
      var m := Horizon(g, Horizon(h, k, t), e.stamp);
      m - k <= |s.done| && Evicted(Storing(Evicted(s, t), e), e.stamp).done == s.done[m - k..] + [e]
  {
    hide Evicted, Horizon;
    var j := Horizon(h, k, t);
    var g := h + [e];
    EvictedTo(s, h, k, t);
    assert g[j..] == h[j..] + [e];
    EvictedTo(Storing(Evicted(s, t), e), g, j, e.stamp);
    HorizonKeepsFresh(g, j, e.stamp);
    SuffixOfBoth(s.done, h, e, k, Horizon(g, j, e.stamp));
  }

  lemma SuffixOfBoth(done: seq<Entry>, h: seq<Entry>, e: Entry, k: nat, m: nat)
    requires k <= m <= |h| && done == h[k..]
    ensures (h + [e])[m..] == done[m - k..] + [e]
  {}

  /** Where the two evictions together stop: exactly at the results that are alive at the end. */
  lemma FinalHorizon(s: Store, h: seq<Entry>, k: nat, t: int, r: Request, e: Entry)
    requires Holds(s, h, k, t) && t <= r.at <= e.stamp
    ensures
      var g := h + [e];
      forall i | k <= i < |h| :: Alive(g, i, e.stamp) <==> Horizon(g, Horizon(h, k, r.at), e.stamp) <= i
  {
    var g := h + [e];
    var j := Horizon(h, k, r.at);
    EvictionIsExact(s, h, k, t, r.at);
    assert g[j..] == h[j..] + [e];
    var rest := Store(g[j..], [], {});
    EvictedTo(rest, g, j, e.stamp);
    var m := Horizon(g, j, e.stamp);
    forall i | k <= i < |h| ensures Alive(g, i, e.stamp) <==> m <= i {
      if i < j {
        assert !Alive(h, i, r.at) && g[i] == h[i];
      } else if m <= i {
        assert g[m].stamp <= g[i].stamp;
      }
    }
  }

  /** After both evictions: what is left keeps its binding, unless it was the one dropped. */
  lemma FullBindings(s: Store, h: seq<Entry>, k: nat, t: int, r: Request, e: Entry)
    requires Faithful(s) && Holds(s, h, k, t) && t <= r.at <= e.stamp && e.id == r.id
    requires !HasRoom(s, r.id) && |s.prints| == 2 * MAX_ENTRIES
    ensures
      var bound := s.(prints := s.prints[1..] + [Binding(r.id, r.fingerprint)]);
      var after := Evicted(Storing(Evicted(bound, r.at), e), e.stamp);
      var from := Horizon(h + [e], Horizon(h, k, r.at), e.stamp) - k;
      && Distinct(after.prints) && BoundTo(after.prints, r.id) == Some(r.fingerprint)
      && forall i | from <= i < |s.done| ::
           BoundTo(after.prints, s.done[i].id) ==
           if s.done[i].id == s.prints[0].id then None else BoundTo(s.prints, s.done[i].id)
  {
    hide Evicted, BoundTo, Faithful, HasRoom;
    var bound := s.(prints := s.prints[1..] + [Binding(r.id, r.fingerprint)]);
    var after := Evicted(Storing(Evicted(bound, r.at), e), e.stamp);
    var from := Horizon(h + [e], Horizon(h, k, r.at), e.stamp) - k;
    OwnBinding(s, h, k, t, r, e);
    forall i | from <= i < |s.done|
      ensures BoundTo(after.prints, s.done[i].id) ==
              if s.done[i].id == s.prints[0].id then None else BoundTo(s.prints, s.done[i].id)
    {
      OtherBinding(s, h, k, t, r, e, i);
    }
  }

  /** What both of the sweeps find. */
  lemma SweptTwice(s: Store, h: seq<Entry>, k: nat, t: int, r: Request, e: Entry)
    requires Faithful(s) && Holds(s, h, k, t) && t <= r.at <= e.stamp && e.id == r.id
    requires !HasRoom(s, r.id) && |s.prints| == 2 * MAX_ENTRIES
    ensures
      var bound := s.(prints := s.prints[1..] + [Binding(r.id, r.fingerprint)]);
      var j := Horizon(h, k, r.at);
      && Distinct(bound.prints) && BoundTo(bound.prints, r.id) == Some(r.fingerprint)
      && bound.done == h[k..] && Storing(Evicted(bound, r.at), e).done == (h + [e])[j..]
      && (forall i | k <= i < |h| :: h[i].id != r.id)
      && Horizon(h + [e], j, e.stamp) <= |h|
  {
    hide Evicted;
    var bound := s.(prints := s.prints[1..] + [Binding(r.id, r.fingerprint)]);
    var j := Horizon(h, k, r.at);
    BoundToDropsFirst(s.prints, Binding(r.id, r.fingerprint), r.id);
    EvictedTo(bound, h, k, r.at);
    assert (h + [e])[j..] == h[j..] + [e];
    forall i | k <= i < |h| ensures h[i].id != r.id { assert s.done[i - k] == h[i]; }
    HorizonKeepsFresh(h + [e], j, e.stamp);
  }

  lemma OwnBinding(s: Store, h: seq<Entry>, k: nat, t: int, r: Request, e: Entry)
    requires Faithful(s) && Holds(s, h, k, t) && t <= r.at <= e.stamp && e.id == r.id
    requires !HasRoom(s, r.id) && |s.prints| == 2 * MAX_ENTRIES
    ensures
      var bound := s.(prints := s.prints[1..] + [Binding(r.id, r.fingerprint)]);
      var after := Evicted(Storing(Evicted(bound, r.at), e), e.stamp);
      Distinct(after.prints) && BoundTo(after.prints, r.id) == Some(r.fingerprint)
  {
    hide Evicted, BoundTo, Faithful, HasRoom, Horizon;
    var bound := s.(prints := s.prints[1..] + [Binding(r.id, r.fingerprint)]);
    SweptTwice(s, h, k, t, r, e);
    EvictedBindings(bound, h, k, r.at, r.id);
    EvictedBindings(Storing(Evicted(bound, r.at), e), h + [e], Horizon(h, k, r.at), e.stamp, r.id);
  }

  lemma OtherBinding(s: Store, h: seq<Entry>, k: nat, t: int, r: Request, e: Entry, i: nat)
    requires Faithful(s) && Holds(s, h, k, t) && t <= r.at <= e.stamp && e.id == r.id
    requires !HasRoom(s, r.id) && |s.prints| == 2 * MAX_ENTRIES
    requires Horizon(h + [e], Horizon(h, k, r.at), e.stamp) - k <= i < |s.done|
    ensures
      var bound := s.(prints := s.prints[1..] + [Binding(r.id, r.fingerprint)]);
      var after := Evicted(Storing(Evicted(bound, r.at), e), e.stamp);
      BoundTo(after.prints, s.done[i].id) ==
      if s.done[i].id == s.prints[0].id then None else BoundTo(s.prints, s.done[i].id)
  {
    assert BoundTo(s.prints, r.id).None?;
    hide Evicted, BoundTo, HasRoom, Horizon;
    var bound := s.(prints := s.prints[1..] + [Binding(r.id, r.fingerprint)]);
    SweptTwice(s, h, k, t, r, e);
    LeftBinding(s, h, k, r, r.at, i);
    hide Faithful;
    EvictedBindings(bound, h, k, r.at, r.id);
    assert s.done[i] == h[k + i] == (h + [e])[k + i];
    EvictedBindings(Storing(Evicted(bound, r.at), e), h + [e], Horizon(h, k, r.at), e.stamp, s.done[i].id);
  }

  /** The stale result of an id is what the sweep takes away. */
  lemma StaleIsSwept(s: Store, h: seq<Entry>, k: nat, t: int, id: string, now: int)
    requires Holds(s, h, k, t) && t <= now
    ensures Stale(s, id, now) <==> exists i | k <= i < Horizon(h, k, now) :: h[i].id == id
  {
    EvictedTo(s, h, k, now);
    EvictionIsExact(s, h, k, t, now);
    if Stale(s, id, now) {
      var i :| 0 <= i < |s.done| && s.done[i].id == id && Expired(s.done[i], now);
      assert h[k + i] == s.done[i] && !Alive(h, k + i, now);
    }
    if i :| k <= i < Horizon(h, k, now) && h[i].id == id {
      assert s.done[i - k] == h[i];
    }
  }

  lemma AbortIsFaithful(s: Store, id: string)
    requires Faithful(s) && ResultOf(s.done, id).None?
    ensures Faithful(Aborted(s.(inflight := s.inflight + {id}), id))
  {
    ResultOfFinds(s.done, id);
    UnbindRemoves(s.prints, id, "");
    forall i | 0 <= i < |s.done| ensures BoundTo(Unbind(s.prints, id), s.done[i].id) == Some(s.done[i].response.computedFor) {
      UnbindRemoves(s.prints, id, s.done[i].id);
    }
  }

  /** The store just before the eviction that ends `finish`. */
  function Storing(s: Store, e: Entry): Store { s.(done := s.done + [e]) }

  lemma OthersStayFaithful(s: Store, h: seq<Entry>, k: nat, e: Entry, i: nat)
    requires Faithful(s) && k <= |h| && s.done == h[k..]
    requires forall i, j | k <= i < j < |h| :: h[i].id != h[j].id
    requires var g := h + [e]; Horizon(g, k, e.stamp) <= i < |h|
    ensures BoundTo(Evicted(Storing(s, e), e.stamp).prints, h[i].id) == Some(h[i].response.computedFor)
  {
    var g := h + [e];
    assert g[k..] == h[k..] + [e];
    assert s.done[i - k] == h[i];
    EvictedBindings(Storing(s, e), g, k, e.stamp, h[i].id);
  }

  /** Storing a new result is faithful exactly if its id is still bound. */
  lemma FinishFaith(s: Store, h: seq<Entry>, k: nat, t: int, r: Request, response: Response, now: int)
    requires Faithful(s) && Holds(s, h, k, t) && t <= now && s.inflight == {}
    requires (forall i | 0 <= i < |s.done| :: s.done[i].id != r.id) && response.computedFor == r.fingerprint
    requires BoundTo(s.prints, r.id) in {None, Some(r.fingerprint)}
    ensures Faithful(Finished(s.(inflight := s.inflight + {r.id}), r.id, response, now)) <==> BoundTo(s.prints, r.id).Some?
  {
    var e := Entry(r.id, now, response);
    var g := h + [e];
    assert g[k..] == h[k..] + [e];
    var j := Horizon(g, k, now);
    var after := Evicted(Storing(s, e), now);
    StoredAppends(s.done, e);
    assert s.inflight + {r.id} - {r.id} == s.inflight;
    assert Finished(s.(inflight := s.inflight + {r.id}), r.id, response, now) == after;
    hide Faithful, Holds;
    EvictedTo(Storing(s, e), g, k, now);
    HorizonKeepsFresh(g, k, now);
    NewestBinding(s, h, k, t, e);
    assert after.done[|after.done| - 1] == e;
    forall i | 0 <= i < |after.done| - 1
      ensures BoundTo(after.prints, after.done[i].id) == Some(after.done[i].response.computedFor)
    {
      DistinctTail(s, h, k, t);
      OthersStayFaithful(s, h, k, e, j + i);
    }
    FaithOf(after, e, r.fingerprint);
  }

  lemma DistinctTail(s: Store, h: seq<Entry>, k: nat, t: int)
    requires Holds(s, h, k, t)
    ensures k <= |h| && s.done == h[k..] && forall i, j | k <= i < j < |h| :: h[i].id != h[j].id
  {}

  lemma NewestBinding(s: Store, h: seq<Entry>, k: nat, t: int, e: Entry)
    requires Faithful(s) && Holds(s, h, k, t) && forall i | 0 <= i < |s.done| :: s.done[i].id != e.id
    ensures Distinct(Evicted(Storing(s, e), e.stamp).prints)
    ensures BoundTo(Evicted(Storing(s, e), e.stamp).prints, e.id) == BoundTo(s.prints, e.id)
  {
    var g := h + [e];
    assert g[k..] == h[k..] + [e];
    EvictedBindings(Storing(s, e), g, k, e.stamp, e.id);
    HorizonKeepsFresh(g, k, e.stamp);
    forall i | k <= i < Horizon(g, k, e.stamp) ensures g[i].id != e.id { assert s.done[i - k] == g[i]; }
  }

  /** With all the older results bound, only the newest decides. */
  lemma FaithOf(s: Store, e: Entry, fingerprint: string)
    requires s.done != [] && s.done[|s.done| - 1] == e && e.response.computedFor == fingerprint && Distinct(s.prints)
    requires BoundTo(s.prints, e.id) in {None, Some(fingerprint)}
    requires forall i | 0 <= i < |s.done| - 1 :: BoundTo(s.prints, s.done[i].id) == Some(s.done[i].response.computedFor)
    ensures Faithful(s) <==> BoundTo(s.prints, e.id).Some?
  {}

  // ------------------------------------------------------------------ over every run

  lemma {:induction false} EvictedShrinks(s: Store, now: int)
    ensures |Evicted(s, now).prints| <= |s.prints|
    decreases |s.done|
  {
    if s.done != [] && MustGo(s.done, now) {
      EvictedShrinks(s.(done := s.done[1..], prints := Unbind(s.prints, s.done[0].id)), now);
    }
  }

  /** There are never more than 1024 fingerprints. */
  lemma ServedStaysBounded(s: Store, r: Request, work: Work)
    requires |s.prints| <= 2 * MAX_ENTRIES
    ensures |Served(s, r, work).0.prints| <= 2 * MAX_ENTRIES
  {
    DropOldestKeepsNewest(s.prints + [Binding(r.id, r.fingerprint)]);
    var (bound, fits) := Bound(s, r.id, r.fingerprint);
    EvictedShrinks(bound, r.at);
    var swept := Evicted(bound, r.at);
    if work.Ran? {
      var started := swept.(inflight := swept.inflight + {r.id});
      var response := Response(r.fingerprint, work.verdict);
      EvictedShrinks(started.(inflight := started.inflight - {r.id}, done := Stored(started.done, Entry(r.id, work.at, response))), work.at);
    }
  }

  /** Never a stale id computed again, nor a live result's binding pushed out. */
  predicate Careful(ops: seq<(Request, Work)>) {
    ops == [] ||
    var front, last := ops[..|ops| - 1], ops[|ops| - 1];
    var s := Run(EMPTY, front);
    Careful(front) && !StaleReuse(s, last.0, last.1) && !DropsLive(s, last.0, last.1)
  }

  lemma {:induction false} CarefulRunsAreFaithful(ops: seq<(Request, Work)>, start: int)
    requires Timely(ops, start) && Careful(ops)
    ensures Faithful(Run(EMPTY, ops)) && |Run(EMPTY, ops).prints| <= 2 * MAX_ENTRIES
  {
    hide Served, Holds, StaleReuse, DropsLive;
    if ops != [] {
      hide Faithful;
      var front, last := ops[..|ops| - 1], ops[|ops| - 1];
      CarefulRunsAreFaithful(front, start);
      RunHolds(front, start);
      var k :| Holds(Run(EMPTY, front), History(EMPTY, front), k, Ends(front, start));
      FaithIsKeptExactly(Run(EMPTY, front), History(EMPTY, front), k, Ends(front, start), last.0, last.1);
      ServedStaysBounded(Run(EMPTY, front), last.0, last.1);
    }
  }

  /** In a careful run every replayed verdict was computed for an equal fingerprint. */
  lemma ReplayedForAnEqualFingerprint(ops: seq<(Request, Work)>, start: int, r: Request, work: Work)
    requires Timely(ops, start) && Careful(ops) && Ends(ops, start) <= r.at
    ensures
      var answer := Served(Run(EMPTY, ops), r, work).1;
      answer.Replayed? ==> answer.response.computedFor == r.fingerprint
  {
    hide Served, Holds, Faithful;
    CarefulRunsAreFaithful(ops, start);
    RunHolds(ops, start);
    var k :| Holds(Run(EMPTY, ops), History(EMPTY, ops), k, Ends(ops, start));
    ReplaysAreFaithful(Run(EMPTY, ops), History(EMPTY, ops), k, Ends(ops, start), r, work);
  }

  // ------------------------------------------------------------------ what a broken binding does

  /** The request is answered with a verdict that was computed for another fingerprint. */
  predicate Misanswered(s: Store, r: Request, work: Work) {
    var answer := Served(s, r, work).1;
    answer.Replayed? && answer.response.computedFor != r.fingerprint
  }

  lemma EvictedIsFresh(s: Store, h: seq<Entry>, k: nat, now: int)
    requires k <= |h| && s.done == h[k..] && Sorted(h)
    ensures forall e <- Evicted(s, now).done :: !Expired(e, now)
    ensures |Evicted(s, now).done| <= MAX_ENTRIES
  {
    hide Evicted;
    EvictedTo(s, h, k, now);
    var r := Horizon(h, k, now);
    forall e <- Evicted(s, now).done ensures !Expired(e, now) {
      var i :| r <= i < |h| && h[i] == e;
      assert h[r].stamp <= h[i].stamp by { if r < i { assert Sorted(h); } }
    }
  }

  /** A request that is neither refused for its fingerprint nor replayed leaves only fresh results. */
  lemma ServedIsFresh(s: Store, h: seq<Entry>, k: nat, t: int, r: Request, work: Work)
    requires Holds(s, h, k, t) && s.inflight == {} && InTime(r, work, t)
    requires var a := Served(s, r, work).1; !a.Conflict? && !a.Replayed? && !a.Joined?
    ensures forall e <- Served(s, r, work).0.done :: !Expired(e, EndOf(r, work))
    ensures |Served(s, r, work).0.done| <= MAX_ENTRIES
  {
    hide Evicted, Horizon;
    var (bound, fits) := Bound(s, r.id, r.fingerprint);
    var swept := Evicted(bound, r.at);
    EvictedIsFresh(bound, h, k, r.at);
    if work.Ran? {
      EvictedTo(bound, h, k, r.at);
      var j := Horizon(h, k, r.at);
      var e := Entry(r.id, work.at, Response(r.fingerprint, work.verdict));
      ResultOfFinds(swept.done, r.id);
      StoredAppends(swept.done, e);
      var g := h + [e];
      assert g[j..] == h[j..] + [e] && Sorted(g);
      EvictedIsFresh(swept.(inflight := {}, done := Stored(swept.done, e)), g, j, work.at);
      assert swept.inflight + {r.id} - {r.id} == {};
    }
  }

  lemma {:induction false} EvictedStaysDistinct(s: Store, now: int)
    requires Distinct(s.prints)
    ensures Distinct(Evicted(s, now).prints)
    decreases |s.done|
  {
    if s.done != [] && MustGo(s.done, now) {
      UnbindRemoves(s.prints, s.done[0].id, s.done[0].id);
      EvictedStaysDistinct(s.(done := s.done[1..], prints := Unbind(s.prints, s.done[0].id)), now);
    }
  }

  lemma ServedStaysDistinct(s: Store, r: Request, work: Work)
    requires Distinct(s.prints)
    ensures Distinct(Served(s, r, work).0.prints)
  {
    hide Evicted, Unbind, Stored, Bound;
    var (bound, fits) := Bound(s, r.id, r.fingerprint);
    BoundStaysDistinct(s, r);
    var swept := Evicted(bound, r.at);
    EvictedStaysDistinct(bound, r.at);
    UnbindRemoves(swept.prints, r.id, r.id);
    if work.Ran? {
      var started := swept.(inflight := swept.inflight + {r.id});
      var e := Entry(r.id, work.at, Response(r.fingerprint, work.verdict));
      EvictedStaysDistinct(started.(inflight := started.inflight - {r.id}, done := Stored(started.done, e)), work.at);
    }
  }

  lemma {:induction false} RunStaysDistinct(ops: seq<(Request, Work)>)
    ensures Distinct(Run(EMPTY, ops).prints)
  {
    if ops != [] {
      hide Served;
      RunStaysDistinct(ops[..|ops| - 1]);
      ServedStaysDistinct(Run(EMPTY, ops[..|ops| - 1]), ops[|ops| - 1].0, ops[|ops| - 1].1);
    }
  }

  /** After any requests: an id whose probe has failed is free again, for whatever fingerprint the
      next request brings. */
  lemma FailedIdIsFree(ops: seq<(Request, Work)>, r: Request, work: Work, next: Request, more: Work)
    requires next.id == r.id
    ensures
      var (after, answer) := Served(Run(EMPTY, ops), r, work);
      answer.Failed? ==> !Served(after, next, more).1.Conflict?
  {
    hide Run, Evicted, Unbind, Stored;
    var s := Run(EMPTY, ops);
    RunStaysDistinct(ops);
    BoundStaysDistinct(s, r);
    var bound := Bound(s, r.id, r.fingerprint).0;
    EvictedStaysDistinct(bound, r.at);
    UnbindRemoves(Evicted(bound, r.at).prints, r.id, r.id);
  }

  lemma BoundStaysDistinct(s: Store, r: Request)
    requires Distinct(s.prints)
    ensures Distinct(Bound(s, r.id, r.fingerprint).0.prints)
  {
    BoundToFinds(s.prints, r.id);
    var longer := s.prints + [Binding(r.id, r.fingerprint)];
    DropOldestKeepsNewest(longer);
    if BoundTo(s.prints, r.id).None? {
      assert Distinct(longer);
      LastIsDistinct(longer, 2 * MAX_ENTRIES);
    }
  }

  lemma LastIsDistinct(prints: seq<Binding>, n: nat)
    requires Distinct(prints)
    ensures Distinct(Last(prints, n))
  {}

  /** A fresh result without its own binding answers the next request for its id, whatever that is
      bound to - or binds itself to. */
  lemma BrokenBindingMisanswers(s: Store, i: nat, now: int)
    requires i < |s.done| <= MAX_ENTRIES && (forall e <- s.done :: !Expired(e, now))
    requires forall j | 0 <= j < |s.done| && j != i :: s.done[j].id != s.done[i].id
    requires BoundTo(s.prints, s.done[i].id) != Some(s.done[i].response.computedFor)
    ensures exists fingerprint :: Misanswered(s, Request(s.done[i].id, fingerprint, now), Rejected)
  {
    hide DropOldest;
    var e := s.done[i];
    var known := BoundTo(s.prints, e.id);
    var fingerprint := if known.Some? then known.value else e.response.computedFor + ['?'];
    assert fingerprint != e.response.computedFor by { if known.None? { assert |fingerprint| == |e.response.computedFor| + 1; } }
    var (bound, fits) := Bound(s, e.id, fingerprint);
    assert s.done[0] in s.done;
    assert Evicted(bound, now) == bound;
    ResultOfFinds(s.done, e.id);
    assert ResultOf(s.done, e.id) == Some(e.response);
    assert Misanswered(s, Request(e.id, fingerprint, now), Rejected);
  }

  /** Exactly these two let anybody see another's verdict: after a request on a faithful store, some
      next request can be answered with a verdict that was computed for another fingerprint if and
      only if the request reused a stale id, or pushed out the binding of a result that is left. */
  lemma MisanswersExactly(s: Store, h: seq<Entry>, k: nat, t: int, r: Request, work: Work)
    requires Faithful(s) && Holds(s, h, k, t) && s.inflight == {} && InTime(r, work, t)
    requires |s.prints| <= 2 * MAX_ENTRIES
    ensures (exists next: Request, more: Work :: EndOf(r, work) <= next.at && Misanswered(Served(s, r, work).0, next, more)) <==>
            StaleReuse(s, r, work) || DropsLive(s, r, work)
  {
    hide Served, Faithful, Holds, Misanswered, StaleReuse, DropsLive;
    FaithIsKeptExactly(s, h, k, t, r, work);
    ServingHolds(s, h, k, t, r, work);
    ServedStaysBounded(s, r, work);
    var after := Served(s, r, work).0;
    var g := HistoryAfter(h, r, work, Served(s, r, work).1);
    var j :| Holds(after, g, j, EndOf(r, work));
    if Faithful(after) {
      forall next: Request, more: Work | EndOf(r, work) <= next.at ensures !Misanswered(after, next, more) {
        FaithfulAnswers(after, g, j, EndOf(r, work), next, more);
      }
    } else {
      BreaksByServing(s, h, k, t, r, work);
      ServedIsFresh(s, h, k, t, r, work);
      ServedStaysDistinct(s, r, work) by { FaithfulIsDistinct(s); }
      UnfaithfulMisanswers(after, g, j, EndOf(r, work));
    }
  }

  lemma FaithfulIsDistinct(s: Store)
    requires Faithful(s)
    ensures Distinct(s.prints)
  {}

  lemma FaithfulAnswers(s: Store, h: seq<Entry>, k: nat, t: int, r: Request, work: Work)
    requires Faithful(s) && Holds(s, h, k, t) && t <= r.at && |s.prints| <= 2 * MAX_ENTRIES
    ensures !Misanswered(s, r, work)
  {
    hide Served, Holds, Faithful;
    ReplaysAreFaithful(s, h, k, t, r, work);
  }

  /** Neither a refused nor a replayed request breaks a binding. */
  lemma BreaksByServing(s: Store, h: seq<Entry>, k: nat, t: int, r: Request, work: Work)
    requires Faithful(s) && Holds(s, h, k, t) && s.inflight == {} && InTime(r, work, t) && |s.prints| <= 2 * MAX_ENTRIES
    requires StaleReuse(s, r, work) || DropsLive(s, r, work)
    ensures var a := Served(s, r, work).1; !a.Conflict? && !a.Replayed? && !a.Joined?
  {
    hide Evicted, Horizon, Outlives;
    var (bound, fits) := Bound(s, r.id, r.fingerprint);
    EvictedTo(bound, h, k, r.at);
    if HasRoom(s, r.id) {
      hide Holds, Faithful, StaleReuse;
      ReuseIsComputed(s, h, k, t, r, work);
    } else {
      ServedAsNew(s, h, k, t, r, work);
      BoundWhenFull(s, r);
      ResultOfFinds(Evicted(bound, r.at).done, r.id);
    }
  }

  lemma UnfaithfulMisanswers(s: Store, h: seq<Entry>, k: nat, now: int)
    requires Holds(s, h, k, now) && Distinct(s.prints) && !Faithful(s)
    requires forall e <- s.done :: !Expired(e, now)
    ensures exists next: Request, more: Work :: now <= next.at && Misanswered(s, next, more)
  {
    hide Misanswered;
    var i :| 0 <= i < |s.done| && BoundTo(s.prints, s.done[i].id) != Some(s.done[i].response.computedFor);
    forall j | 0 <= j < |s.done| && j != i ensures s.done[j].id != s.done[i].id {
      assert s.done[j] == h[k + j] && s.done[i] == h[k + i];
    }
    BrokenBindingMisanswers(s, i, now);
    var fingerprint :| Misanswered(s, Request(s.done[i].id, fingerprint, now), Rejected);
    assert now <= Request(s.done[i].id, fingerprint, now).at;
  }

  // ------------------------------------------------------------------ the counterexample

  const LATE := RESULT_TTL + 1

  const FIRST := Request("x", "a", 0)
  const AGAIN := Request("x", "a", LATE)
  const OTHER := Request("x", "b", LATE)

  /** Three requests with one id, the third with different parameters, and only one fingerprint
      ever held: the third is answered with the verdict on the first parameters. */
  lemma StaleReuseReplaysAnothersVerdict(one: string, two: string)
    ensures
      var s := Run(EMPTY, [(FIRST, Ran(one, 0)), (AGAIN, Ran(two, LATE))]);
      && |s.prints| == 0
      && Served(s, OTHER, Rejected).1 == Replayed(Response("a", two))
  {
    var a, b := Entry("x", 0, Response("a", one)), Entry("x", LATE, Response("a", two));
    var ops := [(FIRST, Ran(one, 0)), (AGAIN, Ran(two, LATE))];
    var none: seq<(Request, Work)> := [];
    assert ops[..1][..0] == none && ops[..2] == ops;
    var s1 := Store([a], [Binding("x", "a")], {});
    assert Served(EMPTY, FIRST, Ran(one, 0)).0 == s1 by { ServesNew(EMPTY, FIRST, one, 0); }
    assert Run(EMPTY, ops[..1]) == s1;
    var swept := Store([], [], {});
    assert Evicted(s1, LATE) == swept by { assert [a][1..] == [] && [Binding("x", "a")][1..] == []; }
    var s2 := Store([b], [], {});
    assert Served(s1, AGAIN, Ran(two, LATE)).0 == s2 by { StoresFresh(swept, b); }
    assert Run(EMPTY, ops) == s2;
    assert Bound(s2, "x", "b").0.prints == [Binding("x", "b")];
  }

  lemma StoresFresh(s: Store, e: Entry)
    requires s.done == [] && s.inflight == {}
    ensures Finished(s.(inflight := {e.id}), e.id, e.response, e.stamp) == s.(done := [e])
  {}

  lemma ServesNew(s: Store, r: Request, verdict: string, at: int)
    requires s == EMPTY
    ensures Served(s, r, Ran(verdict, at)).0 ==
            Store([Entry(r.id, at, Response(r.fingerprint, verdict))], [Binding(r.id, r.fingerprint)], {})
  {
    StoresFresh(Store([], [Binding(r.id, r.fingerprint)], {}), Entry(r.id, at, Response(r.fingerprint, verdict)));
  }
}

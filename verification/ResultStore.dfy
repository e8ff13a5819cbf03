/** The verifier's idempotency store: results for six hours, at most 512 of them, and for each
    request id the fingerprint it arrived with. */
module ResultStore {
  import opened Wrappers

  const RESULT_TTL := 6 * 3600
  const MAX_ENTRIES := 512

  /** A verdict, and the fingerprint of the request it was computed for. */
  datatype Response = Response(computedFor: string, verdict: string)

  datatype Entry = Entry(id: string, stamp: int, response: Response)

  datatype Binding = Binding(id: string, fingerprint: string)

  /** Both dictionaries remember the order of insertion, oldest first. */
  datatype Store = Store(done: seq<Entry>, prints: seq<Binding>, inflight: set<string>)

  // ------------------------------------------------------------------ ordered dictionaries

  function BoundTo(prints: seq<Binding>, id: string): Option<string> {
    if prints == [] then None
    else if prints[0].id == id then Some(prints[0].fingerprint)
    else BoundTo(prints[1..], id)
  }

  /** `pop(key, None)`. */
  function Unbind(prints: seq<Binding>, id: string): (r: seq<Binding>)
    ensures |r| <= |prints|
  {
    if prints == [] then []
    else if prints[0].id == id then prints[1..]
    else [prints[0]] + Unbind(prints[1..], id)
  }

  ghost predicate Distinct(prints: seq<Binding>) {
    forall i, j | 0 <= i < j < |prints| :: prints[i].id != prints[j].id
  }

  lemma {:induction false} BoundToFinds(prints: seq<Binding>, id: string)
    ensures BoundTo(prints, id).None? <==> forall i | 0 <= i < |prints| :: prints[i].id != id
  {
    if prints != [] && prints[0].id != id {
      BoundToFinds(prints[1..], id);
      assert forall i | 1 <= i < |prints| :: prints[i] == prints[1..][i - 1];
    }
  }

  lemma {:induction false} UnbindRemoves(prints: seq<Binding>, gone: string, id: string)
    requires Distinct(prints)
    ensures Distinct(Unbind(prints, gone))
    ensures BoundTo(Unbind(prints, gone), id) == if id == gone then None else BoundTo(prints, id)
    ensures forall b <- Unbind(prints, gone) :: b in prints
  {
    if prints != [] {
      if prints[0].id == gone {
        BoundToFinds(prints[1..], gone);
      } else {
        UnbindRemoves(prints[1..], gone, id);
        var rest := Unbind(prints[1..], gone);
        assert ([prints[0]] + rest)[1..] == rest;
        forall i | 0 <= i < |rest| ensures rest[i].id != prints[0].id { assert rest[i] in rest; }
      }
    }
  }

  function ResultOf(done: seq<Entry>, id: string): Option<Response> {
    if done == [] then None
    else if done[0].id == id then Some(done[0].response)
    else ResultOf(done[1..], id)
  }

  /** Assignment to an ordered dictionary: in place for a known key, at the end for a new one. */
  function Stored(done: seq<Entry>, e: Entry): seq<Entry> {
    if done == [] then [e]
    else if done[0].id == e.id then [e] + done[1..]
    else [done[0]] + Stored(done[1..], e)
  }

  // ------------------------------------------------------------------ operations

  function DropOldest(prints: seq<Binding>): seq<Binding> {
    if |prints| > 2 * MAX_ENTRIES then DropOldest(prints[1..]) else prints
  }

  /** The last `n` elements, or all of them. */
  function Last<T>(xs: seq<T>, n: nat): seq<T> { if |xs| > n then xs[|xs| - n..] else xs }

  lemma {:induction false} DropOldestKeepsNewest(prints: seq<Binding>)
    ensures DropOldest(prints) == Last(prints, 2 * MAX_ENTRIES)
  {
    if |prints| > 2 * MAX_ENTRIES { DropOldestKeepsNewest(prints[1..]); }
  }

  /** `bind`: a new id is bound, and the oldest bindings go by count alone. */
  function Bound(s: Store, id: string, fingerprint: string): (Store, bool) {
    match BoundTo(s.prints, id)
    case None => (s.(prints := DropOldest(s.prints + [Binding(id, fingerprint)])), true)
    case Some(known) => (s, known == fingerprint)
  }

  predicate Expired(e: Entry, now: int) { now - e.stamp > RESULT_TTL }

  predicate MustGo(done: seq<Entry>, now: int)
    requires done != []
  {
    Expired(done[0], now) || |done| > MAX_ENTRIES
  }

  function Evicted(s: Store, now: int): Store
    decreases |s.done|
  {
    if s.done != [] && MustGo(s.done, now)
    then Evicted(s.(done := s.done[1..], prints := Unbind(s.prints, s.done[0].id)), now) else s
  }

  function Finished(s: Store, id: string, response: Response, now: int): Store {
    Evicted(s.(inflight := s.inflight - {id}, done := Stored(s.done, Entry(id, now, response))), now)
  }

  function Aborted(s: Store, id: string): Store {
    s.(inflight := s.inflight - {id}, prints := Unbind(s.prints, id))
  }

  class ResultStore {
    var done: seq<Entry>
    var prints: seq<Binding>
    var inflight: set<string>

    ghost function View(): Store
      reads this
    {
      Store(done, prints, inflight)
    }

    constructor ()
      ensures View() == Store([], [], {})
    {
      done, prints, inflight := [], [], {};
    }

    /** A new id is bound, and of all bindings the newest 1024 are kept. */
    method Bind(id: string, fingerprint: string) returns (fits: bool)
      modifies this`prints
      ensures BoundTo(old(prints), id).None? ==>
                prints == Last(old(prints) + [Binding(id, fingerprint)], 2 * MAX_ENTRIES)
      ensures BoundTo(old(prints), id).Some? ==> prints == old(prints)
      ensures View() == Bound(old(View()), id, fingerprint).0
      ensures fits == Bound(old(View()), id, fingerprint).1
    {
      var known := BoundTo(prints, id);
      if known.None? {
        prints := prints + [Binding(id, fingerprint)];
        ghost var all := prints;
        while |prints| > 2 * MAX_ENTRIES
          invariant |prints| <= |all| && prints == all[|all| - |prints|..]
          invariant |prints| < |all| ==> |prints| >= 2 * MAX_ENTRIES
          invariant done == old(done) && inflight == old(inflight)
        {
          prints := prints[1..];
        }
        DropOldestKeepsNewest(all);
        return true;
      }
      return known.value == fingerprint;
    }

    method Evict(now: int)
      modifies this`done, this`prints
      ensures View() == Evicted(old(View()), now)
      ensures |done| <= MAX_ENTRIES && (done != [] ==> !Expired(done[0], now))
    {
      while done != []
        invariant Evicted(View(), now) == Evicted(old(View()), now)
        invariant inflight == old(inflight)
        decreases |done|
      {
        var oldest := done[0];
        if now - oldest.stamp > RESULT_TTL || |done| > MAX_ENTRIES {
          done := done[1..];
          prints := Unbind(prints, oldest.id);
        } else {
          break;
        }
      }
    }

    method Get(id: string, now: int) returns (hit: Option<Response>)
      modifies this`done, this`prints
      ensures View() == Evicted(old(View()), now)
      ensures hit == ResultOf(done, id)
    {
      Evict(now);
      hit := ResultOf(done, id);
    }

    method Start(id: string)
      modifies this`inflight
      ensures inflight == old(inflight) + {id}
    {
      inflight := inflight + {id};
    }

    /** The flight ends, and the result answers for its id, unless the eviction took it. */
    method Finish(id: string, response: Response, now: int)
      modifies this
      ensures View() == Finished(old(View()), id, response, now)
      ensures inflight == old(inflight) - {id}
      ensures |done| <= MAX_ENTRIES
    {
      inflight := inflight - {id};
      done := Stored(done, Entry(id, now, response));
      Evict(now);
    }

    /** The flight ends and the id is free for any fingerprint; every other id stays bound. */
    method Abort(id: string)
      modifies this`prints, this`inflight
      ensures inflight == old(inflight) - {id}
      ensures Distinct(old(prints)) ==> Distinct(prints)
      ensures Distinct(old(prints)) ==> forall other: string ::
                BoundTo(prints, other) == if other == id then None else BoundTo(old(prints), other)
      ensures View() == Aborted(old(View()), id)
    {
      hide BoundTo, Unbind;
      if Distinct(prints) {
        UnbindRemoves(prints, id, id);
        forall other: string ensures BoundTo(Unbind(prints, id), other) == if other == id then None else BoundTo(prints, other) {
          UnbindRemoves(prints, id, other);
        }
      }
      inflight := inflight - {id};
      prints := Unbind(prints, id);
    }

    /** The handler, for one request at a time: `work` is what running the probe comes to. A request
        conflicts exactly if its id is bound to another fingerprint, and then changes nothing. */
    method RunProbe(r: Request, work: Work) returns (answer: Answer)
      modifies this
      ensures answer.Conflict? <==> BoundTo(old(prints), r.id).Some? && BoundTo(old(prints), r.id).value != r.fingerprint
      ensures answer.Conflict? ==> View() == old(View())
      ensures View() == Served(old(View()), r, work).0
      ensures answer == Served(old(View()), r, work).1
    {
      var fits := Bind(r.id, r.fingerprint);
      if !fits {
        return Conflict;
      }
      var hit := Get(r.id, r.at);
      if hit.Some? {
        return Replayed(hit.value);
      }
      if r.id in inflight {
        return Joined;
      }
      if work.Rejected? {
        return Refused;
      }
      Start(r.id);
      if work.Raised? {
        Abort(r.id);
        return Failed;
      }
      var response := Response(r.fingerprint, work.verdict);
      Finish(r.id, response, work.at);
      return Computed(response);
    }
  }

  // ------------------------------------------------------------------ serving requests

  datatype Request = Request(id: string, fingerprint: string, at: int)

  /** What becomes of a request that is not answered from the store: refused before it starts,
      started and failed, or finished. */
  datatype Work = Rejected | Raised | Ran(verdict: string, at: int)

  datatype Answer = Conflict | Replayed(response: Response) | Joined | Refused | Failed | Computed(response: Response)

  function Served(s: Store, r: Request, work: Work): (Store, Answer) {
    var (bound, fits) := Bound(s, r.id, r.fingerprint);
    if !fits then (bound, Conflict)
    else
      var swept := Evicted(bound, r.at);
      match ResultOf(swept.done, r.id)
      case Some(response) => (swept, Replayed(response))
      case None =>
        if r.id in swept.inflight then (swept, Joined)
        else
          match work
          case Rejected => (swept, Refused)
          case Raised => (Aborted(swept.(inflight := swept.inflight + {r.id}), r.id), Failed)
          case Ran(verdict, at) =>
            var response := Response(r.fingerprint, verdict);
            (Finished(swept.(inflight := swept.inflight + {r.id}), r.id, response, at), Computed(response))
  }
}

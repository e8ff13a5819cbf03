/** Draining a pipe while keeping only its first, or only its last, bytes. */
module Captures {

  type Byte = bv8

  /** What a sequence of reads delivers: a read of nothing is the end of the stream. */
  function Stream(parts: seq<seq<Byte>>): seq<Byte> {
    if parts == [] || parts[0] == [] then [] else parts[0] + Stream(parts[1..])
  }

  predicate Open(parts: seq<seq<Byte>>, n: nat)
    requires n <= |parts|
  {
    forall i | 0 <= i < n :: parts[i] != []
  }

  /** The reads before `n`, when none of them ended the stream. */
  function Joined(parts: seq<seq<Byte>>, n: nat): seq<Byte>
    requires n <= |parts|
  {
    if n == 0 then [] else Joined(parts, n - 1) + parts[n - 1]
  }

  lemma {:induction false} StreamJoins(parts: seq<seq<Byte>>, n: nat)
    requires n <= |parts| && Open(parts, n)
    ensures Stream(parts) == Joined(parts, n) + Stream(parts[n..])
  {
    if n == 0 {
      assert parts[0..] == parts;
    } else {
      StreamJoins(parts, n - 1);
      assert parts[n - 1..][1..] == parts[n..];
    }
  }

  /** At the end of the stream everything read has been delivered. */
  lemma StreamEnds(parts: seq<seq<Byte>>, n: nat)
    requires n <= |parts| && Open(parts, n) && (n == |parts| || parts[n] == [])
    ensures Stream(parts) == Joined(parts, n)
  {
    StreamJoins(parts, n);
    assert n < |parts| ==> parts[n..][0] == [];
    assert Joined(parts, n) + [] == Joined(parts, n);
  }

  function First(s: seq<Byte>, limit: nat): seq<Byte> { if |s| <= limit then s else s[..limit] }

  function Last(s: seq<Byte>, limit: nat): seq<Byte> { if |s| <= limit then s else s[|s| - limit..] }

  lemma FirstGrows(s: seq<Byte>, chunk: seq<Byte>, limit: nat)
    ensures First(s + chunk, limit) == First(s, limit) + First(chunk, limit - |First(s, limit)|)
  {}

  lemma LastGrows(s: seq<Byte>, chunk: seq<Byte>, limit: nat)
    ensures Last(Last(s, limit) + chunk, limit) == Last(s + chunk, limit)
  {}

  class BoundedCapture {
    const limit: nat
    var buffer: seq<Byte>
    var truncated: bool

    constructor (limit: nat)
      ensures this.limit == limit && buffer == [] && !truncated
    {
      this.limit := limit;
      buffer, truncated := [], false;
    }

    /** However the stream is cut into reads, exactly its first `limit` bytes are kept, and it is
        called truncated exactly if it is longer. */
    method Drain(parts: seq<seq<Byte>>)
      requires buffer == [] && !truncated
      modifies this
      ensures buffer == First(Stream(parts), limit)
      ensures truncated <==> |Stream(parts)| > limit
    {
      var i := 0;
      while i < |parts|
        invariant 0 <= i <= |parts| && Open(parts, i)
        invariant buffer == First(Joined(parts, i), limit)
        invariant truncated <==> |Joined(parts, i)| > limit
      {
        var chunk := parts[i];
        if chunk == [] {
          StreamEnds(parts, i);
          return;
        }
        FirstGrows(Joined(parts, i), chunk, limit);
        var room := limit - |buffer|;
        if room > 0 {
          buffer := buffer + (if |chunk| <= room then chunk else chunk[..room]);
        }
        if |chunk| > room {
          truncated := true;
        }
        i := i + 1;
      }
      StreamEnds(parts, i);
    }
  }

  class TailCapture {
    const limit: nat
    var buffer: seq<Byte>

    constructor (limit: nat)
      ensures this.limit == limit && buffer == []
    {
      this.limit := limit;
      buffer := [];
    }

    /** One read: append, then drop what is too much at the front. */
    method KeepLast(chunk: seq<Byte>)
      modifies this
      ensures buffer == Last(old(buffer) + chunk, limit)
    {
      buffer := buffer + chunk;
      if |buffer| > limit {
        buffer := buffer[|buffer| - limit..];
      }
    }

    /** However the stream is cut, exactly its last `limit` bytes are kept, and between two reads
        never more than that. */
    method Drain(parts: seq<seq<Byte>>)
      requires buffer == []
      modifies this
      ensures buffer == Last(Stream(parts), limit)
    {
      hide Stream;
      var i := 0;
      while i < |parts|
        invariant 0 <= i <= |parts| && Open(parts, i)
        invariant buffer == Last(Joined(parts, i), limit)
        invariant |buffer| <= limit
      {
        var chunk := parts[i];
        if chunk == [] {
          StreamEnds(parts, i);
          return;
        }
        LastGrows(Joined(parts, i), chunk, limit);
        KeepLast(chunk);
        i := i + 1;
      }
      StreamEnds(parts, i);
    }
  }

  /** Two ways of cutting the same bytes are indistinguishable. */
  lemma {:induction false} CutsOnlyJoin(a: seq<seq<Byte>>, b: seq<Byte>)
    requires forall i | 0 <= i < |a| :: a[i] != []
    ensures Stream(a + [b]) == Stream(a) + b
  {
    if a != [] {
      assert (a + [b])[1..] == a[1..] + [b];
      CutsOnlyJoin(a[1..], b);
    } else if b != [] {
      assert Stream([b]) == b + Stream([b][1..]);
    }
  }
}

/** Memory requests and the request queue the generator appends to. */
module Requests {
  import opened Configs

  datatype Op = Read | Write

  /** A memory-operation request: its identity, address, width in bytes,
      kind and the identities it waits for. */
  datatype Request = Request(id: nat, addr: u64, width: u32, op: Op, deps: seq<nat>)

  /** The read at `source` and the write at `target` that depends on it. */
  function ReadWritePair(readId: nat, source: u64, target: u64, width: u32): (rs: seq<Request>)
    ensures |rs| == 2 && IsDependentPair(rs[0], rs[1]) && rs[0].id == readId < rs[1].id
    ensures rs[0].addr == source && rs[1].addr == target && rs[0].width == width == rs[1].width
  {
    [Request(readId, source, width, Read, []), Request(readId + 1, target, width, Write, [readId])]
  }

  /** A read with no dependencies followed by a write whose single
      dependency is that read. */
  predicate IsDependentPair(r: Request, w: Request)
  {
    r.op == Read && r.deps == [] && w.op == Write && w.deps == [r.id]
  }

  /** Requests come in dependent read/write pairs. */
  predicate PairedStream(s: seq<Request>)
    decreases |s|
  {
    s == [] || (|s| >= 2 && IsDependentPair(s[0], s[1]) && PairedStream(s[2..]))
  }

  /** In a paired stream every even index starts a dependent pair: each write
      depends on exactly the read just before it. */
  lemma {:induction false} PairedStreamAt(s: seq<Request>, i: nat)
    requires PairedStream(s) && i < |s| && i % 2 == 0
    ensures i + 1 < |s| && IsDependentPair(s[i], s[i + 1])
  {
    if i > 0 {
      PairedStreamAt(s[2..], i - 2);
    }
  }

  /** Identities grow strictly along the stream, so no two are equal. */
  predicate IdsIncreasing(s: seq<Request>)
  {
    forall i, j :: 0 <= i < j < |s| ==> s[i].id < s[j].id
  }

  predicate IdsBelow(s: seq<Request>, bound: nat)
  {
    forall i :: 0 <= i < |s| ==> s[i].id < bound
  }

  /** Appending a dependent pair keeps a stream paired. */
  lemma {:induction false} PairedStreamAppend(s: seq<Request>, pair: seq<Request>)
    requires PairedStream(s) && |pair| == 2 && IsDependentPair(pair[0], pair[1])
    ensures PairedStream(s + pair)
    decreases |s|
  {
    if s == [] {
      assert pair[2..] == [];
    } else {
      PairedStreamAppend(s[2..], pair);
      assert (s + pair)[2..] == s[2..] + pair;
    }
  }

  /** The requests issued so far: in dependent pairs, with strictly
      increasing identities, all below `bound`. */
  predicate WellIssued(s: seq<Request>, bound: nat)
  {
    PairedStream(s) && IdsIncreasing(s) && IdsBelow(s, bound)
  }

  /** Appending a fresh pair keeps the stream paired, keeps identities
      increasing and moves the bound of used identities past it. */
  lemma AppendPair(s: seq<Request>, nextId: nat, source: u64, target: u64, width: u32)
    requires WellIssued(s, nextId)
    ensures WellIssued(s + ReadWritePair(nextId, source, target, width), nextId + 2)
  {
    PairedStreamAppend(s, ReadWritePair(nextId, source, target, width));
  }

  /** The driver's request queue; this model only appends to it. */
  class RequestQueue {
    var items: seq<Request>

    constructor ()
      ensures items == []
    {
      items := [];
    }

    method PushBack(r: Request)
      modifies this
      ensures items == old(items) + [r]
    {
      items := items + [r];
    }
  }
}

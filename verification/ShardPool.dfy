/** The pool of connection shards: a session always lands on the shard its identifier hashes to. */
module ShardPool {

  const FNV_OFFSET: bv32 := 2166136261
  const FNV_PRIME: bv32 := 16777619

  /** One byte of FNV-1a: exclusive or, then a 32-bit multiplication that wraps around. */
  function FnvByte(h: bv32, b: bv8): bv32 { (h ^ (b as bv32)) * FNV_PRIME }

  function Fnv(bytes: seq<bv8>): bv32
  {
    if bytes == [] then FNV_OFFSET else FnvByte(Fnv(bytes[..|bytes| - 1]), bytes[|bytes| - 1])
  }

  function HomeShard(bytes: seq<bv8>, shards: nat): (i: nat)
    requires shards > 0
    ensures i < shards
  {
    (Fnv(bytes) as nat) % shards
  }

  function NextShard(home: nat, shards: nat): (i: nat)
    requires home < shards
    ensures i < shards
  {
    (home + 1) % shards
  }

  /** The neighbour used for a retry is another shard exactly when there is more than one. */
  lemma NeighbourDiffersIff(home: nat, shards: nat)
    requires home < shards
    ensures NextShard(home, shards) != home <==> shards > 1
  {
    if home + 1 < shards {
      assert NextShard(home, shards) == home + 1;
    } else {
      assert NextShard(home, shards) == 0;
    }
  }

  lemma FnvOfOneMore(bytes: seq<bv8>, b: bv8)
    ensures Fnv(bytes + [b]) == FnvByte(Fnv(bytes), b)
  {
    assert (bytes + [b])[..|bytes|] == bytes;
  }

  lemma OneByte(b: bv8)
    ensures Fnv([b]) == FnvByte(FNV_OFFSET, b)
  {
    FnvOfOneMore([], b);
    assert [] + [b] == [b];
  }

  lemma TwoBytes(b: bv8, c: bv8)
    ensures Fnv([b, c]) == FnvByte(FnvByte(FNV_OFFSET, b), c)
  {
    OneByte(b);
    FnvOfOneMore([b], c);
    assert [b] + [c] == [b, c];
  }

  lemma ByteVectors()
    ensures FnvByte(0x811C_9DC5, 0x61) == 0xE40C_292C
    ensures FnvByte(0x811C_9DC5, 0x66) == 0xE30C_2799 && FnvByte(0xE30C_2799, 0x6F) == 0x6222_E842
  {
  }

  /** The published test vectors of 32-bit FNV-1a for the empty string, "a" and "fo". */
  lemma FnvVectors()
    ensures Fnv([]) == 0x811C_9DC5 && Fnv([0x61]) == 0xE40C_292C && Fnv([0x66, 0x6F]) == 0x6222_E842
  {
    OneByte(0x61);
    TwoBytes(0x66, 0x6F);
    ByteVectors();
  }

  lemma Remainder(x: nat, n: nat)
    requires n > 0
    ensures exists q: nat :: q * n + x % n == x
  {
    assert (x / n) * n + x % n == x;
  }

  /** A session's home differs from its hash by a multiple of the number of shards. */
  lemma HomeIsTheRemainder(bytes: seq<bv8>, shards: nat, hash: nat)
    requires shards > 0 && hash == Fnv(bytes) as nat
    ensures exists q: nat :: q * shards + HomeShard(bytes, shards) == hash
  {
    Remainder(hash, shards);
    assert HomeShard(bytes, shards) == hash % shards;
  }

  class Pool {
    const stubs: seq<nat>

    /** A pool always has at least one shard. */
    constructor (shards: int)
      ensures |stubs| == (if shards < 1 then 1 else shards)
      ensures forall i | 0 <= i < |stubs| :: stubs[i] == i
    {
      var n := if shards < 1 then 1 else shards;
      var built: seq<nat> := [];
      var i := 0;
      while i < n
        invariant 0 <= i <= n && |built| == i
        invariant forall k | 0 <= k < i :: built[k] == k
      {
        built := built + [i];
        i := i + 1;
      }
      stubs := built;
    }

    method ShardIndex(session: seq<bv8>, shards: nat) returns (i: nat)
      requires shards > 0
      ensures i == HomeShard(session, shards)
    {
      var h := FNV_OFFSET;
      var k := 0;
      while k < |session|
        invariant 0 <= k <= |session|
        invariant h == Fnv(session[..k])
      {
        assert session[..k + 1][..k] == session[..k];
        h := FnvByte(h, session[k]);
        k := k + 1;
      }
      assert session[..k] == session;
      i := (h as nat) % shards;
    }

    method Stub(session: seq<bv8>) returns (stub: nat)
      requires |stubs| > 0
      ensures stub == stubs[HomeShard(session, |stubs|)]
    {
      var i := ShardIndex(session, |stubs|);
      stub := stubs[i];
    }

    method Next(session: seq<bv8>) returns (stub: nat)
      requires |stubs| > 0
      ensures stub == stubs[NextShard(HomeShard(session, |stubs|), |stubs|)]
    {
      var i := ShardIndex(session, |stubs|);
      stub := stubs[(i + 1) % |stubs|];
    }
  }
}

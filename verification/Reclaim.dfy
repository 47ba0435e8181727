/** How many blocks releasing a group of requests would make allocatable: the counting formula
    is exact, under any sharing. */
module Reclaim {
  import opened BlockPool
  import opened Requests

  function CacheRefs(lru: seq<Entry>, b: nat): nat {
    if lru == [] then 0 else (if lru[0].block == b then 1 else 0) + CacheRefs(lru[1..], b)
  }

  function Reclaimable(p: Pool, blocks: seq<nat>): nat {
    |set b | b in blocks && b < |p.ref| && p.ref[b] == multiset(blocks)[b] + CacheRefs(p.cache.lru, b)|
  }

  lemma {:induction false} CacheRefsMeaning(lru: seq<Entry>, b: nat)
    requires Distinct(lru) && OneHash(lru)
    ensures CacheRefs(lru, b) == if (exists e :: e in lru && e.block == b) then 1 else 0
  {
    if lru != [] {
      var rest := lru[1..];
      assert lru[0] in lru && lru[0] !in rest && forall e :: e in rest ==> e in lru;
      CacheRefsMeaning(rest, b);
      assert forall e :: e in lru <==> e == lru[0] || e in rest;
    }
  }

  lemma {:induction false} DistinctSize<T>(s: seq<T>)
    requires Distinct(s)
    ensures |set x | x in s| == |s|
  {
    if s != [] {
      DistinctSize(s[1..]);
      assert (set x | x in s) == (set x | x in s[1..]) + {s[0]};
      assert s[0] !in s[1..];
    }
  }

  function IdleBlocks(lru: seq<Entry>, ref: seq<int>): set<nat> {
    set e | e in lru && IsIdle(ref, e) :: e.block
  }

  lemma {:induction false} IdleBlocksSize(lru: seq<Entry>, ref: seq<int>)
    requires Distinct(lru) && OneHash(lru)
    ensures |IdleBlocks(lru, ref)| == IdleCount(lru, ref)
  {
    if lru != [] {
      var e, rest := lru[0], lru[1..];
      assert e in lru && e !in rest && forall x :: x in rest ==> x in lru;
      IdleBlocksSize(rest, ref);
      assert forall x :: x in lru <==> x == e || x in rest;
      if IsIdle(ref, e) {
        assert IdleBlocks(lru, ref) == IdleBlocks(rest, ref) + {e.block};
        assert e.block !in IdleBlocks(rest, ref);
      } else {
        assert IdleBlocks(lru, ref) == IdleBlocks(rest, ref);
      }
    }
  }

  function Unheld(p: Pool, held: multiset<nat>): set<nat> {
    set b: nat | b < |p.ref| && held[b] == 0
  }

  lemma PoolLists(p: Pool, held: multiset<nat>)
    requires PoolInv(p, held)
    ensures Distinct(p.free) && Distinct(p.cache.lru) && OneHash(p.cache.lru)
  {
  }

  /** A block no table refers to is either free or cached and idle, never both. */
  lemma FreeOrIdle(p: Pool, held: multiset<nat>, b: nat)
    requires PoolInv(p, held)
    ensures b < |p.ref| && held[b] == 0 <==> b in p.free || b in IdleBlocks(p.cache.lru, p.ref)
    ensures !(b in p.free && b in IdleBlocks(p.cache.lru, p.ref))
  {
    if h: Hash :| Entry(h, b) in p.cache.lru {
      assert IsCached(p.cache, b);
      assert IsIdle(p.ref, Entry(h, b)) ==> b in IdleBlocks(p.cache.lru, p.ref);
    }
    if e :| e in p.cache.lru && IsIdle(p.ref, e) && e.block == b {
      assert Entry(e.hash, b) in p.cache.lru;
    }
  }

  /** What allocation can still hand out is exactly what no block table refers to. */
  lemma AvailableIsUnheld(p: Pool, held: multiset<nat>)
    requires PoolInv(p, held)
    ensures Available(p) == |Unheld(p, held)|
  {
    hide PoolInv, IdleCount, Distinct, OneHash, IdleBlocks;
    var free := set b | b in p.free;
    var idle := IdleBlocks(p.cache.lru, p.ref);
    PoolLists(p, held);
    DistinctSize(p.free);
    IdleBlocksSize(p.cache.lru, p.ref);
    forall b: nat
      ensures b in Unheld(p, held) <==> b in free || b in idle
      ensures !(b in free && b in idle)
    {
      FreeOrIdle(p, held, b);
    }
    assert Unheld(p, held) == free + idle;
    assert free !! idle;
  }

  lemma CacheRefsIsCached(p: Pool, held: multiset<nat>, b: nat)
    requires PoolInv(p, held)
    ensures CacheRefs(p.cache.lru, b) == if IsCached(p.cache, b) then 1 else 0
  {
    CacheRefsMeaning(p.cache.lru, b);
    if e :| e in p.cache.lru && e.block == b {
      assert Entry(e.hash, b) in p.cache.lru;
    }
  }

  lemma SharedByOthers(p: Pool, rest: multiset<nat>, blocks: seq<nat>, b: nat)
    requires PoolInv(p, rest + multiset(blocks)) && b < |p.ref|
    ensures p.ref[b] == multiset(blocks)[b] + CacheRefs(p.cache.lru, b) <==> rest[b] == 0
  {
    hide CacheRefs;
    CacheRefsIsCached(p, rest + multiset(blocks), b);
    assert (rest + multiset(blocks))[b] == rest[b] + multiset(blocks)[b];
  }

  /** The predicted count is exactly the growth of free plus evictable blocks when the group's
      tables are released, whoever else shares them. */
  lemma ReclaimableIsExact(p: Pool, rest: multiset<nat>, blocks: seq<nat>)
    requires PoolInv(p, rest + multiset(blocks))
    ensures Available(DecrefAll(p, blocks)) == Available(p) + Reclaimable(p, blocks)
  {
    hide PoolInv, Available, CacheRefs, DecrefAll;
    var held := rest + multiset(blocks);
    var p' := DecrefAll(p, blocks);
    DecrefAllKeeps(p, rest, blocks);
    AvailableIsUnheld(p, held);
    AvailableIsUnheld(p', rest);
    var gained := set b | b in blocks && b < |p.ref| && p.ref[b] == multiset(blocks)[b] + CacheRefs(p.cache.lru, b);
    forall b: nat
      ensures b in Unheld(p', rest) <==> b in Unheld(p, held) || b in gained
      ensures b in gained ==> b !in Unheld(p, held)
    {
      assert held[b] == rest[b] + multiset(blocks)[b];
      assert b in blocks <==> b in multiset(blocks);
      if b < |p.ref| {
        SharedByOthers(p, rest, blocks, b);
      }
    }
    assert Unheld(p', rest) == Unheld(p, held) + gained;
  }

  /** The tables of a group, end to end. */
  function GroupBlocks(reqs: seq<Req>, group: seq<nat>): seq<nat> {
    if group == [] then []
    else (if group[0] < |reqs| then reqs[group[0]].table else []) + GroupBlocks(reqs, group[1..])
  }

  /** `deallocate` for each request of a group in turn. */
  function DeallocateGroup(p: Pool, reqs: seq<Req>, group: seq<nat>): Pool
    decreases |group|
  {
    if group == [] then p
    else DeallocateGroup(if group[0] < |reqs| then DecrefAll(p, reqs[group[0]].table) else p, reqs, group[1..])
  }

  lemma {:induction false} DecrefAllConcat(p: Pool, a: seq<nat>, b: seq<nat>)
    ensures DecrefAll(p, a + b) == DecrefAll(DecrefAll(p, a), b)
    decreases |a|
  {
    if a == [] {
      assert a + b == b;
    } else {
      assert (a + b)[1..] == a[1..] + b;
      DecrefAllConcat(Decref(p, a[0]), a[1..], b);
    }
  }

  lemma {:induction false} GroupIsConcat(p: Pool, reqs: seq<Req>, group: seq<nat>)
    ensures DeallocateGroup(p, reqs, group) == DecrefAll(p, GroupBlocks(reqs, group))
    decreases |group|
  {
    if group != [] {
      var own := if group[0] < |reqs| then reqs[group[0]].table else [];
      DecrefAllConcat(p, own, GroupBlocks(reqs, group[1..]));
      GroupIsConcat(DecrefAll(p, own), reqs, group[1..]);
    }
  }

  /** `reclaimable_blocks(G)` against releasing G request by request. */
  lemma ReclaimableGroup(p: Pool, rest: multiset<nat>, reqs: seq<Req>, group: seq<nat>)
    requires PoolInv(p, rest + multiset(GroupBlocks(reqs, group)))
    ensures Available(DeallocateGroup(p, reqs, group)) == Available(p) + Reclaimable(p, GroupBlocks(reqs, group))
  {
    hide PoolInv, Available, Reclaimable, DecrefAll;
    GroupIsConcat(p, reqs, group);
    ReclaimableIsExact(p, rest, GroupBlocks(reqs, group));
  }
}

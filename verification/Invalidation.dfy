/** Why a bare invalidation needs its condition: `reset_kv_state` leaves `prefix_parent`
    alone, so a running request that had published would republish its first block under the
    hash of a longer prefix. */
module Invalidation {
  import opened Kv
  import opened BlockPool
  import opened Requests
  import opened Ownership
  import opened OwnershipSteps
  import opened System
  import opened SystemInv
  import opened ScheduleInv

  /** A network whose entry for a position is the position. */
  function Counting(): Net {
    Net((before: seq<Cell>, _) => |before|, (_, _, _) => 0)
  }

  lemma {:induction false} CountingCells(tokens: seq<Token>)
    ensures forall i :: 0 <= i < |tokens| ==> RefCells(Counting(), tokens)[i] == i
  {
    if tokens != [] {
      CountingCells(tokens[..|tokens| - 1]);
    }
  }

  lemma InsertMembers(c: Cache, x: Entry, e: Entry)
    requires e in c.lru
    ensures e in Insert(c, x).0.lru
  {
    if x in c.lru && x != e {
      WithoutOthers(c.lru, x, e);
      assert e in Without(c.lru, x) + [x];
    }
  }

  lemma {:induction false} WithoutOthers<T>(s: seq<T>, x: T, y: T)
    requires y in s && y != x
    ensures y in Without(s, x)
  {
    if s[0] != x && s[0] != y {
      WithoutOthers(s[1..], x, y);
    }
  }

  lemma {:induction false} PublishLoopKeeps(p: Pool, tokens: seq<Token>, table: seq<nat>, i: nat, full: nat, parent: Hash, e: Entry)
    requires full <= |table| && e in p.cache.lru
    ensures e in PublishLoop(p, tokens, table, i, full, parent).0.cache.lru
    decreases full - i
  {
    hide Insert, BlockTokens;
    if i < full && i * p.bs + p.bs <= |tokens| {
      var h := Link(parent, BlockTokens(tokens, p.bs, i));
      InsertMembers(p.cache, Entry(h, table[i]), e);
      PublishLoopKeeps(PublishEntry(p, Entry(h, table[i])), tokens, table, i + 1, full, h, e);
    }
  }

  /** The first entry a request publishes carries its own chain hash exactly when its parent
      is the root. */
  lemma FirstEntry(p: Pool, r: Req)
    requires p.bs >= 1 && p.caching && r.published == 0 && r.table != []
    requires p.bs <= r.computed <= |r.tokens|
    requires !IsCached(p.cache, r.table[0]) && CacheValid(p.cache)
    ensures var e := Entry(Link(r.parent, BlockTokens(r.tokens, p.bs, 0)), r.table[0]);
      && e in PublishFullBlocks(p, r).0.cache.lru
      && (e.hash == ChainHash(r.tokens, p.bs, 1) <==> r.parent == Root)
  {
    hide BlockTokens, Insert;
    var e := Entry(Link(r.parent, BlockTokens(r.tokens, p.bs, 0)), r.table[0]);
    PositionInTable(r.computed, 1, p.bs);
    InsertNew(p.cache, e);
    var full := Min(|r.table|, r.computed / p.bs);
    assert full >= 1;
    PublishLoopKeeps(PublishEntry(p, e), r.tokens, r.table, 1, full, e.hash, e);
    assert ChainHash(r.tokens, p.bs, 1) == Link(Root, BlockTokens(r.tokens, p.bs, 0));
  }

  /** A request that starts publishing under a parent that is not the root: once it has recomputed
      its first block, whatever blocks it now has, publishing puts a wrong copy in the cache. */
  lemma UnsafeCorrupts(p: Pool, mem: Memory, r: Req)
    requires p.bs >= 1 && p.caching && CacheValid(p.cache) && MemoryShape(mem, p.bs)
    requires r.published == 0 && HashTokens(r.parent) != []
    requires p.bs <= r.computed <= |r.tokens| && r.table != [] && !IsCached(p.cache, r.table[0])
    requires Holds(Counting(), mem, r.table, r.tokens, r.computed)
    ensures !CacheHolds(Counting(), mem, p.bs, PublishFullBlocks(p, r).0.cache.lru)
  {
    hide PublishFullBlocks, CacheValid, ChainHash, BlockTokens, Flat, RefCells, HashTokens, IsCached;
    var e := Entry(Link(r.parent, BlockTokens(r.tokens, p.bs, 0)), r.table[0]);
    FirstEntry(p, r);
    WrongContents(mem, p.bs, r, e);
    assert !BlockHolds(Counting(), mem, p.bs, e);
  }

  lemma ParentIsLong(net: Net, s: Sys, k: nat)
    requires SysInv(net, s) && k < |s.reqs| && s.reqs[k].status == Running && s.reqs[k].parent != Root && s.pool.caching
    ensures 1 <= s.pool.bs <= s.reqs[k].computed && |HashTokens(s.reqs[k].parent)| >= s.pool.bs
  {
    hide PoolInv, CacheHolds, AllShaped, Queues, Flat, RefCells, Held, HashTokens, Rest, Local;
    KvShape(net, s);
    var bs, r := s.pool.bs, s.reqs[k];
    At(net, s, k);
    RunningReady(net, s.pool, s.mem, Rest(s.reqs, k), r);
    LocalShape(net, s.pool, s.mem, Rest(s.reqs, k), r);
    PositionInTable(r.computed, 0, bs);
    MulOrder(r.published, r.computed / bs, bs);
    MulOrder(1, r.published, bs);
    ChainHashTokens(r.tokens, bs, r.published);
  }

  lemma WrongContents(mem: Memory, bs: nat, r: Req, e: Entry)
    requires bs >= 1 && bs <= r.computed <= |r.tokens| && r.table != [] && MemoryShape(mem, bs)
    requires Holds(Counting(), mem, r.table, r.tokens, r.computed)
    requires e == Entry(Link(r.parent, BlockTokens(r.tokens, bs, 0)), r.table[0]) && |HashTokens(r.parent)| >= 1
    ensures !BlockHolds(Counting(), mem, bs, e)
  {
    hide Flat, RefCells;
    var prefix := HashTokens(e.hash);
    assert |prefix| == |HashTokens(r.parent)| + bs;
    CountingCells(prefix);
    CountingCells(r.tokens[..r.computed]);
    FlatBlock(mem, bs, r.table, 0);
    assert mem[r.table[0]][0] == Flat(mem, r.table)[0] == Flat(mem, r.table)[..r.computed][0] == 0;
    assert RefCells(Counting(), prefix)[|prefix| - bs..][0] == |prefix| - bs;
  }
}

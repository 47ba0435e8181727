/** Each block-manager operation keeps the invariant of the request it works on, and frames
    every other request. */
module OwnershipSteps {
  import opened Kv
  import opened BlockPool
  import opened Requests
  import opened Ownership

  lemma FrameTransitive(p: Pool, mem: Memory, p1: Pool, mem1: Memory, p2: Pool, mem2: Memory, rest: multiset<nat>)
    requires Frame(p, mem, p1, mem1, rest) && Frame(p1, mem1, p2, mem2, rest)
    ensures Frame(p, mem, p2, mem2, rest)
  {
  }

  /** A pool-only step that keeps every held block and adds nothing to the cache. */
  lemma PoolOnlyStep(net: Net, p: Pool, mem: Memory, rest: multiset<nat>, r: Req, p': Pool)
    requires Local(net, p, mem, rest, r)
    requires PoolInv(p', rest + multiset(r.table)) && Keeps(p, p', rest + multiset(r.table))
    requires forall e :: e in p'.cache.lru ==> e in p.cache.lru
    ensures Local(net, p', mem, rest, r) && Frame(p, mem, p', mem, rest)
  {
    hide RefCells, Flat, ChainHash, PoolInv;
    TableInHeld(r.table, rest + multiset(r.table));
    FrameKeepsBlocks(p, p', r, r.computed / p.bs);
  }

  lemma EvictStep(net: Net, p: Pool, mem: Memory, rest: multiset<nat>, r: Req, n: int)
    requires Local(net, p, mem, rest, r)
    ensures Local(net, EvictUnused(p, n), mem, rest, r) && Frame(p, mem, EvictUnused(p, n), mem, rest)
  {
    EvictUnusedKeeps(p, rest + multiset(r.table), n);
    PoolOnlyStep(net, p, mem, rest, r, EvictUnused(p, n));
  }

  lemma AllocReqInv(net: Net, p: Pool, mem: Memory, r: Req, q: Pool, b: nat)
    requires p.bs >= 1 && |mem| == |p.ref| && MemoryShape(mem, p.bs)
    requires ReqInv(net, p, mem, r) && PublishReady(p, r)
    requires b < |p.ref| && |q.ref| == |p.ref| && q.ref[b] == 1 && !IsCached(q.cache, b)
    requires Keeps(p, q, multiset(r.table))
    requires forall e :: e in q.cache.lru ==> e in p.cache.lru
    ensures ReqInv(net, q, mem, r.(table := r.table + [b]))
  {
    hide RefCells, ChainHash, Flat;
    var r' := r.(table := r.table + [b]);
    TableInHeld(r.table, multiset(r.table));
    FrameKeepsBlocks(p, q, r, r.computed / p.bs);
    FlatAppend(mem, r.table, b);
    assert Flat(mem, r'.table)[..r.computed] == Flat(mem, r.table)[..r.computed];
    forall e, i | e in q.cache.lru && 0 <= i < |r'.table| && r'.table[i] == e.block
      ensures e.hash == ChainHash(r'.tokens, q.bs, i + 1)
    {
      assert Entry(e.hash, e.block) in q.cache.lru;
    }
  }

  /** A fresh block at the end of the table is exclusive and carries no computed position. */
  lemma AllocStep(net: Net, p: Pool, mem: Memory, rest: multiset<nat>, r: Req)
    requires Local(net, p, mem, rest, r) && PublishReady(p, r) && AllocBlock(p).Some?
    ensures var (q, b) := AllocBlock(p).value; var r' := r.(table := r.table + [b]);
      Local(net, q, mem, rest, r') && Frame(p, mem, q, mem, rest) && PublishReady(q, r')
  {
    hide RefCells, ChainHash, Flat, AllocBlock, ReqInv;
    var held := rest + multiset(r.table);
    AllocBlockKeeps(p, held);
    var (q, b) := AllocBlock(p).value;
    assert rest + multiset(r.table + [b]) == held + multiset{b};
    KeepsSub(p, q, held, rest);
    KeepsSub(p, q, held, multiset(r.table));
    AllocReqInv(net, p, mem, r, q, b);
  }

  // ----- allocation -----

  /** Growing succeeds whenever enough blocks are free or idle, and only appends. */
  lemma {:induction false} GrowStep(net: Net, p: Pool, mem: Memory, rest: multiset<nat>, r: Req, needed: nat)
    requires Local(net, p, mem, rest, r) && PublishReady(p, r)
    requires needed <= |r.table| + Available(p)
    ensures var (q, table) := Grow(p, r.table, needed);
      && |table| == (if |r.table| >= needed then |r.table| else needed)
      && r.table <= table
      && Local(net, q, mem, rest, r.(table := table)) && PublishReady(q, r.(table := table))
      && Frame(p, mem, q, mem, rest)
      && Available(q) == Available(p) - (|table| - |r.table|)
    decreases needed - |r.table|
  {
    hide Local, Frame, PublishReady, AllocBlock, Available;
    if |r.table| < needed {
      AllocAvailable(net, p, mem, rest, r);
      AllocStep(net, p, mem, rest, r);
      var (q, b) := AllocBlock(p).value;
      var r' := r.(table := r.table + [b]);
      GrowStep(net, q, mem, rest, r', needed);
      assert r.table <= r'.table;
      FrameTransitive(p, mem, q, mem, Grow(p, r.table, needed).0, mem, rest);
    } else {
      assert r.(table := r.table) == r;
      FrameRefl(p, mem, rest);
    }
  }

  lemma FrameRefl(p: Pool, mem: Memory, rest: multiset<nat>)
    ensures Frame(p, mem, p, mem, rest)
  {
  }

  lemma AllocAvailable(net: Net, p: Pool, mem: Memory, rest: multiset<nat>, r: Req)
    requires Local(net, p, mem, rest, r)
    ensures AllocBlock(p).Some? <==> Available(p) > 0
    ensures AllocBlock(p).Some? ==> Available(AllocBlock(p).value.0) == Available(p) - 1
  {
    hide ReqInv, CacheHolds, AllocBlock, Available;
    AllocBlockKeeps(p, rest + multiset(r.table));
  }

  /** Copy-on-write never fires on blocks that are the request's alone. */
  lemma {:induction false} CowNeverFires(p: Pool, table: seq<nat>, i: nat, end: nat)
    requires Exclusive(p, table, i)
    ensures CowRange(p, table, i, end) == (p, table, [])
    decreases end - i
  {
    if i < end && i < |table| {
      CowNeverFires(p, table, i + 1, end);
    }
  }

  /** Fields outside the KV bookkeeping do not matter. */
  ghost predicate SameKv(r: Req, r': Req) {
    && r'.tokens == r.tokens && r'.computed == r.computed && r'.table == r.table
    && r'.published == r.published && r'.parent == r.parent
    && (r'.status == Running ==> r.status == Running || r.table != [])
  }

  lemma SameKvKeeps(net: Net, p: Pool, mem: Memory, rest: multiset<nat>, r: Req, r': Req)
    requires Local(net, p, mem, rest, r) && SameKv(r, r')
    ensures Local(net, p, mem, rest, r')
    ensures PublishReady(p, r) ==> PublishReady(p, r')
  {
    hide RefCells, Flat, ChainHash, PoolInv, CacheHolds, MemoryShape;
  }

  lemma EvictCounts(net: Net, p: Pool, mem: Memory, rest: multiset<nat>, r: Req, n: nat)
    requires Local(net, p, mem, rest, r)
    ensures var q := EvictUnused(p, n);
      && Local(net, q, mem, rest, r) && Frame(p, mem, q, mem, rest)
      && Available(q) == Available(p)
      && |q.free| == Min(|p.free| + n, Available(p))
  {
    hide PoolInv, Keeps, Frame, ReqInv, CacheHolds, EvictUnused, IdleCount, MemoryShape;
    EvictStep(net, p, mem, rest, r, n);
    EvictUnusedKeeps(p, rest + multiset(r.table), n);
  }

  /** `can_allocate_tokens` answers exactly whether the free and idle blocks suffice. */
  lemma CanAllocateStep(net: Net, p: Pool, mem: Memory, rest: multiset<nat>, r: Req, n: nat)
    requires Local(net, p, mem, rest, r) && p.bs >= 1
    ensures var (q, ok) := CanAllocate(p, r, n); var need := BlocksNeededFor(r.computed + n, p.bs) - |r.table|;
      && Local(net, q, mem, rest, r) && Frame(p, mem, q, mem, rest)
      && Available(q) == Available(p)
      && (n > 0 ==> (ok <==> need <= Available(p)))
      && (n == 0 ==> ok && q == p)
  {
    hide Local, Frame, BlocksNeededFor, EvictUnused, IdleCount;
    var need := BlocksNeededFor(r.computed + n, p.bs) - |r.table|;
    FrameRefl(p, mem, rest);
    if n > 0 && need > |p.free| {
      EvictCounts(net, p, mem, rest, r, need - |p.free|);
    }
  }

  /** Growing and then checking for shared blocks: nothing is copied. */
  lemma GrowToStep(net: Net, p: Pool, mem: Memory, rest: multiset<nat>, r: Req, epoch: nat, needed: nat)
    requires Local(net, p, mem, rest, r) && p.bs >= 1 && PublishReady(p, r)
    requires needed <= |r.table| + Available(p)
    ensures var (q, table) := Grow(p, r.table, needed); var r' := r.(table := table, epoch := epoch);
      && q.bs == p.bs
      && CowRange(q, table, r.computed / p.bs, needed) == (q, table, [])
      && |table| == Max(|r.table|, needed) && r.table <= table
      && Local(net, q, mem, rest, r') && PublishReady(q, r') && Frame(p, mem, q, mem, rest)
      && Available(q) == Available(p) - (|table| - |r.table|)
      && NoneShared(q, table, r.computed / p.bs)
  {
    hide Local, Frame, PublishReady, Available, Grow, CowRange;
    GrowStep(net, p, mem, rest, r, needed);
    var (q, table) := Grow(p, r.table, needed);
    FrameShape(p, mem, q, mem, rest);
    var grown := r.(table := table);
    GrownExclusive(net, q, mem, rest, grown);
    CowNeverFires(q, table, r.computed / p.bs, needed);
    SameKvKeeps(net, q, mem, rest, grown, grown.(epoch := epoch));
  }

  /** `allocate_for_tokens` succeeds exactly when free and idle blocks suffice.  It then only
      appends fresh blocks, covers the span, and copies nothing. */
  lemma AllocateStep(net: Net, p: Pool, mem: Memory, rest: multiset<nat>, r: Req, n: nat)
    requires Local(net, p, mem, rest, r) && p.bs >= 1 && PublishReady(p, r) && n > 0
    ensures var need := BlocksNeededFor(r.computed + n, p.bs) - |r.table|;
      AllocateForTokens(p, r, n).Allocated? <==> need <= Available(p)
    ensures AllocateForTokens(p, r, n).Allocated? ==> Grantable(p, r, n)
    ensures AllocateForTokens(p, r, n).Allocated? ==>
      var Allocated(q, r', copies) := AllocateForTokens(p, r, n);
      && copies == []
      && r.table <= r'.table && r' == r.(table := r'.table, epoch := p.epoch)
      && |r'.table| == Max(|r.table|, BlocksNeededFor(r.computed + n, p.bs))
      && r.computed + n <= |r'.table| * p.bs
      && Local(net, q, mem, rest, r') && PublishReady(q, r') && Frame(p, mem, q, mem, rest)
      && Available(q) == Available(p) - (|r'.table| - |r.table|)
  {
    hide Local, Frame, PublishReady, Available, CanAllocate, Grow, CowRange, BlocksNeededFor;
    LocalShape(net, p, mem, rest, r);
    var end := r.computed + n;
    var needed := BlocksNeededFor(end, p.bs);
    CanAllocateStep(net, p, mem, rest, r, n);
    var (p1, ok) := CanAllocate(p, r, n);
    if ok {
      FrameShape(p, mem, p1, mem, rest);
      PublishReadySame(p, mem, p1, rest, r);
      GrowToStep(net, p1, mem, rest, r, p.epoch, needed);
      var (p2, table) := Grow(p1, r.table, needed);
      FrameTransitive(p, mem, p1, mem, p2, mem, rest);
      BlocksNeededForMeaning(end, p.bs, |table|);
    }
  }

  function Max(a: int, b: int): int {
    if a >= b then a else b
  }

  lemma LocalShape(net: Net, p: Pool, mem: Memory, rest: multiset<nat>, r: Req)
    requires Local(net, p, mem, rest, r)
    ensures p.bs >= 1 && |mem| == |p.ref| && MemoryShape(mem, p.bs)
    ensures r.computed <= |r.tokens| && r.computed <= |r.table| * p.bs
    ensures InPool(r.table, |mem|)
  {
    hide RefCells, Flat, ChainHash, PoolInv, CacheHolds;
    FlatLength(mem, p.bs, r.table);
  }

  lemma FrameShape(p: Pool, mem: Memory, p': Pool, mem': Memory, rest: multiset<nat>)
    requires Frame(p, mem, p', mem', rest)
    ensures p'.bs == p.bs && p'.caching == p.caching && p'.epoch == p.epoch && |p'.ref| == |p.ref| && |mem'| == |mem|
  {
  }

  lemma GrownExclusive(net: Net, p: Pool, mem: Memory, rest: multiset<nat>, r: Req)
    requires Local(net, p, mem, rest, r)
    ensures p.bs >= 1 && Exclusive(p, r.table, r.computed / p.bs)
  {
    hide RefCells, Flat, ChainHash, PoolInv, CacheHolds;
  }

  lemma PublishReadySame(p: Pool, mem: Memory, p': Pool, rest: multiset<nat>, r: Req)
    requires p.bs >= 1 && p'.bs >= 1 && Frame(p, mem, p', mem, rest) && PublishReady(p, r)
    ensures PublishReady(p', r)
  {
    hide ChainHash;
  }

  // ----- exact capacity -----

  /** How far `r` could extend if every free and idle block were handed to it. */
  function Fits(p: Pool, r: Req, n: int): bool
    requires p.bs >= 1
  {
    BlocksNeededFor(r.computed + n, p.bs) <= |r.table| + Available(p)
  }

  lemma FitsMeaning(p: Pool, r: Req, n: int)
    requires p.bs >= 1
    ensures Fits(p, r, n) <==> r.computed + n <= (|r.table| + Available(p)) * p.bs
  {
    BlocksNeededForMeaning(r.computed + n, p.bs, |r.table| + Available(p));
  }

  /** `max_allocatable_tokens` is the largest count within the limit that fits in the held,
      free and idle blocks, and the allocation that follows it cannot fail. */
  lemma MaxAllocatableStep(net: Net, p: Pool, mem: Memory, rest: multiset<nat>, r: Req, limit: int)
    requires Local(net, p, mem, rest, r) && p.bs >= 1
    ensures var (q, n) := MaxAllocatable(p, r, limit);
      && q.bs == p.bs
      && Local(net, q, mem, rest, r) && Frame(p, mem, q, mem, rest) && Available(q) == Available(p)
      && (limit > 0 ==> n <= limit) && (limit <= 0 ==> n == 0 && q == p)
      && (n > 0 ==> Fits(p, r, n) && Fits(q, r, n))
      && (forall m :: n < m <= limit ==> !Fits(p, r, m))
  {
    hide Local, Frame, BlocksNeededFor, EvictUnused, IdleCount, Fits;
    var (q, n) := MaxAllocatable(p, r, limit);
    FrameRefl(p, mem, rest);
    if limit > 0 {
      var extra := BlocksNeededFor(r.computed + limit, p.bs) - |r.table|;
      if extra > |p.free| {
        EvictCounts(net, p, mem, rest, r, extra - |p.free|);
        FrameShape(p, mem, q, mem, rest);
      }
      LocalShape(net, p, mem, rest, r);
      CapacityIsExact(p, q, r, limit, extra, n);
    }
  }

  lemma CapacityIsExact(p: Pool, q: Pool, r: Req, limit: int, extra: int, n: nat)
    requires p.bs >= 1 && q.bs == p.bs && limit > 0 && Available(q) == Available(p)
    requires extra == BlocksNeededFor(r.computed + limit, p.bs) - |r.table|
    requires if extra > |p.free| then |q.free| == Min(extra, Available(p)) else q == p
    requires n == Max(0, Min(limit, (|r.table| + |q.free|) * p.bs - r.computed))
    ensures n <= limit && (n > 0 ==> Fits(p, r, n) && Fits(q, r, n))
    ensures forall m :: n < m <= limit ==> !Fits(p, r, m)
  {
    hide BlocksNeededFor, Fits, IdleCount;
    var held, all := |r.table| + |q.free|, |r.table| + Available(p);
    MulOrder(held, all, p.bs);
    BlocksNeededForMeaning(r.computed + limit, p.bs, held);
    BlocksNeededForMeaning(r.computed + limit, p.bs, all);
    FitsMeaning(p, r, n);
    FitsMeaning(q, r, n);
    forall m | n < m <= limit
      ensures !Fits(p, r, m)
    {
      FitsMeaning(p, r, m);
    }
  }

  // ----- release -----

  /** Deallocating returns every reference the request held; reset, it holds nothing and owes
      nothing. */
  lemma DeallocateStep(net: Net, p: Pool, mem: Memory, rest: multiset<nat>, r: Req, r': Req)
    requires Local(net, p, mem, rest, r)
    requires r'.table == [] && r'.computed == 0 && r'.status != Running
    ensures Local(net, DecrefAll(p, r.table), mem, rest, r') && Frame(p, mem, DecrefAll(p, r.table), mem, rest)
  {
    hide ReqInv, PoolInv, DecrefAll;
    DecrefAllKeeps(p, rest, r.table);
    var q := DecrefAll(p, r.table);
    assert rest + multiset(r'.table) == rest;
    EmptyReqInv(net, q, mem, r');
  }

  lemma EmptyReqInv(net: Net, p: Pool, mem: Memory, r: Req)
    requires p.bs >= 1 && r.table == [] && r.computed == 0 && r.status != Running
    ensures ReqInv(net, p, mem, r)
  {
    assert Flat(mem, r.table)[..0] == RefCells(net, r.tokens[..0]);
  }

  // ----- moving the computed mark and the history -----

  lemma CachedBelowMark(net: Net, p: Pool, mem: Memory, rest: multiset<nat>, r: Req, e: Entry, i: nat)
    requires Local(net, p, mem, rest, r) && e in p.cache.lru && i < |r.table| && r.table[i] == e.block
    ensures i < r.computed / p.bs && (i + 1) * p.bs <= r.computed
  {
    hide RefCells, Flat, ChainHash, Holds, CacheHolds;
    assert r.table[i] in multiset(r.table);
    assert r.table[i] in rest + multiset(r.table);
    assert Entry(e.hash, e.block) in p.cache.lru;
    PositionInTable(r.computed, i + 1, p.bs);
    MulOrder(i + 1, r.computed / p.bs, p.bs);
  }

  /** The history may change in any way beyond the computed mark. */
  lemma HistoryStep(net: Net, p: Pool, mem: Memory, rest: multiset<nat>, r: Req, r': Req)
    requires Local(net, p, mem, rest, r)
    requires r.computed <= |r.tokens| && r.computed <= |r'.tokens|
    requires r'.tokens[..r.computed] == r.tokens[..r.computed]
    requires SameKv(r.(tokens := r'.tokens), r')
    ensures Local(net, p, mem, rest, r')
    ensures PublishReady(p, r) ==> PublishReady(p, r')
  {
    hide PoolInv, CacheHolds, RefCells, Flat;
    forall e, i | e in p.cache.lru && 0 <= i < |r.table| && r.table[i] == e.block
      ensures e.hash == ChainHash(r'.tokens, p.bs, i + 1)
    {
      CachedBelowMark(net, p, mem, rest, r, e, i);
      ChainBelowMark(r.tokens, r'.tokens, p.bs, i + 1, r.computed);
    }
    if p.caching && r.published <= r.computed / p.bs {
      PositionInTable(r.computed, 0, p.bs);
      MulOrder(r.published, r.computed / p.bs, p.bs);
      ChainBelowMark(r.tokens, r'.tokens, p.bs, r.published, r.computed);
    }
  }

  lemma ChainBelowMark(tokens: seq<Token>, tokens': seq<Token>, bs: nat, n: nat, mark: nat)
    requires mark <= |tokens| && mark <= |tokens'| && tokens[..mark] == tokens'[..mark]
    requires n * bs <= mark
    ensures ChainHash(tokens, bs, n) == ChainHash(tokens', bs, n)
  {
    assert tokens[..n * bs] == tokens[..mark][..n * bs];
    assert tokens'[..n * bs] == tokens'[..mark][..n * bs];
    ChainHashPrefix(tokens, tokens', bs, n);
  }

  /** The mark may advance over any span that already holds the right entries. */
  lemma AdvanceStep(net: Net, p: Pool, mem: Memory, rest: multiset<nat>, r: Req, n: nat)
    requires Local(net, p, mem, rest, r) && r.computed <= n && Holds(net, mem, r.table, r.tokens, n)
    ensures Local(net, p, mem, rest, r.(computed := n))
    ensures PublishReady(p, r) ==> PublishReady(p, r.(computed := n))
  {
    hide PoolInv, CacheHolds, RefCells, Flat, ChainHash, Holds, MemoryShape;
    DivMono(r.computed, n, p.bs);
  }

  // ----- running the network -----

  lemma {:induction false} SharedTwice(table: seq<nat>, i: nat, j: nat)
    requires i < j < |table| && table[i] == table[j]
    ensures multiset(table)[table[i]] >= 2
  {
    assert table == table[..j] + table[j..];
    assert table[..j][i] in multiset(table[..j]) && table[j..][0] in multiset(table[j..]);
  }

  /** A block the request may write is named once, by nobody else, and not by the cache. */
  lemma ExclusiveBlock(net: Net, p: Pool, mem: Memory, rest: multiset<nat>, r: Req, i: nat)
    requires Local(net, p, mem, rest, r) && p.bs >= 1 && r.computed / p.bs <= i < |r.table|
    ensures r.table[i] !in rest && !IsCached(p.cache, r.table[i]) && Once(r.table, i)
  {
    hide RefCells, Flat, ChainHash, Holds, CacheHolds;
    var b := r.table[i];
    assert b in multiset(r.table);
    assert (rest + multiset(r.table))[b] == rest[b] + multiset(r.table)[b] == 1;
    forall j | 0 <= j < |r.table| && j != i
      ensures r.table[j] != b
    {
      if r.table[j] == b {
        if i < j {
          SharedTwice(r.table, i, j);
        } else {
          SharedTwice(r.table, j, i);
        }
      }
    }
  }

  /** One request's share of a step: the new entries are exactly those of recomputation, and
      no other request and no cached block sees a write. */
  lemma ForwardLocal(net: Net, p: Pool, mem: Memory, rest: multiset<nat>, r: Req, end: nat)
    requires Local(net, p, mem, rest, r)
    requires r.computed <= end <= |r.tokens| && end <= |r.table| * p.bs
    ensures var mem' := Forward(net, mem, p.bs, r.table, r.tokens, r.computed, end);
      && Local(net, p, mem', rest, r) && Frame(p, mem, p, mem', rest)
      && Holds(net, mem', r.table, r.tokens, end)
  {
    hide Forward, Flat, RefCells, Holds, ChainHash, PoolInv;
    LocalShape(net, p, mem, rest, r);
    var from := r.computed / p.bs;
    var mem' := Forward(net, mem, p.bs, r.table, r.tokens, r.computed, end);
    forall i | from <= i < |r.table|
      ensures Once(r.table, i)
    {
      ExclusiveBlock(net, p, mem, rest, r, i);
    }
    ForwardHolds(net, mem, p.bs, r.table, r.tokens, r.computed, end);
    HoldsLess(net, mem', r.table, r.tokens, end, r.computed);
    WritesMissOthers(net, p, mem, rest, r, mem');
  }

  lemma WritesMissOthers(net: Net, p: Pool, mem: Memory, rest: multiset<nat>, r: Req, mem': Memory)
    requires Local(net, p, mem, rest, r) && p.bs >= 1 && WritesOnly(mem, mem', r.table, r.computed / p.bs)
    ensures Frame(p, mem, p, mem', rest)
    ensures CacheHolds(net, mem', p.bs, p.cache.lru)
  {
    hide Flat, RefCells, Holds, ChainHash;
    forall i | r.computed / p.bs <= i < |r.table|
      ensures r.table[i] !in rest && !IsCached(p.cache, r.table[i])
    {
      ExclusiveBlock(net, p, mem, rest, r, i);
    }
    assert forall b :: 0 <= b < |mem| && (b in rest || IsCached(p.cache, b)) ==> mem'[b] == mem[b];
    forall e | e in p.cache.lru
      ensures BlockHolds(net, mem', p.bs, e)
    {
      assert BlockHolds(net, mem, p.bs, e);
      assert Entry(e.hash, e.block) in p.cache.lru;
      assert IsCached(p.cache, e.block);
    }
  }

  // ----- truncation -----

  lemma TruncatedReqInv(net: Net, p: Pool, mem: Memory, r: Req, q: Pool, k: nat, r': Req)
    requires p.bs >= 1 && |mem| == |p.ref| && MemoryShape(mem, p.bs)
    requires ReqInv(net, p, mem, r) && PublishReady(p, r)
    requires k <= |r.table| && r.computed <= k * p.bs
    requires r' == r.(table := r.table[..k], published := r'.published)
    requires p.caching ==> r'.published == r.published
    requires Keeps(p, q, multiset(r.table[..k])) && q.cache == p.cache
    ensures ReqInv(net, q, mem, r') && PublishReady(q, r')
  {
    hide RefCells, Flat, ChainHash, CacheValid;
    TruncatedHolds(net, mem, p.bs, r.table, r.tokens, r.computed, k);
    TableInHeld(r'.table, multiset(r'.table));
    PositionInTable(r.computed, 0, p.bs);
    MulOrder(k, r.computed / p.bs, p.bs);
  }

  lemma FrameFromKeeps(p: Pool, mem: Memory, q: Pool, rest: multiset<nat>, own: multiset<nat>)
    requires Keeps(p, q, rest + own)
    ensures Frame(p, mem, q, mem, rest) && Keeps(p, q, own)
  {
  }

  /** Dropping blocks past `n` keeps everything computed up to `n`. */
  lemma TruncateStep(net: Net, p: Pool, mem: Memory, rest: multiset<nat>, r: Req, n: nat)
    requires Local(net, p, mem, rest, r) && p.bs >= 1 && PublishReady(p, r) && r.computed <= n
    ensures var (q, r') := TruncateKv(p, r, n);
      && Local(net, q, mem, rest, r') && Frame(p, mem, q, mem, rest) && PublishReady(q, r')
      && r' == r.(table := r'.table, published := r'.published)
      && r'.table == r.table[..Min(BlocksNeededFor(n, p.bs), |r.table|)]
  {
    hide PoolInv, CacheHolds, ReqInv, PublishReady, BlocksNeededFor, TruncateTable, Frame, Keeps;
    LocalShape(net, p, mem, rest, r);
    var needed := BlocksNeededFor(n, p.bs);
    var k := Min(needed, |r.table|);
    TruncateKeeps(p, rest, r.table, needed);
    var (q, r') := TruncateKv(p, r, n);
    FrameFromKeeps(p, mem, q, rest, multiset(r'.table));
    BlocksNeededForMeaning(n, p.bs, needed);
    PublishedBelowTable(p, r, needed);
    TruncatedReqInv(net, p, mem, r, q, k, r');
  }

  lemma PublishedBelowTable(p: Pool, r: Req, needed: nat)
    requires p.bs >= 1 && PublishReady(p, r) && r.computed <= needed * p.bs
    ensures p.caching ==> Min(r.published, needed) == r.published
  {
    hide ChainHash;
    PositionInTable(r.computed, 0, p.bs);
    MulOrder(needed, r.computed / p.bs, p.bs);
  }

  lemma TruncatedHolds(net: Net, mem: Memory, bs: nat, table: seq<nat>, tokens: seq<Token>, n: nat, k: nat)
    requires MemoryShape(mem, bs) && Holds(net, mem, table, tokens, n) && k <= |table| && n <= k * bs
    ensures Holds(net, mem, table[..k], tokens, n)
  {
    hide RefCells, Flat;
    FlatPrefix(mem, bs, table, k);
    assert Flat(mem, table[..k])[..n] == Flat(mem, table)[..n];
  }

  // ----- attaching a cached prefix -----

  /** `r` after attaching `i` blocks of its own chain. */
  ghost predicate Attached(p: Pool, r: Req, i: nat)
    requires p.bs >= 1
  {
    && |r.table| == i && r.computed == i * p.bs && i * p.bs <= |r.tokens|
    && r.published == i && r.parent == ChainHash(r.tokens, p.bs, i)
  }

  lemma AttachedReady(p: Pool, r: Req, i: nat)
    requires p.bs >= 1 && Attached(p, r, i)
    ensures r.computed / p.bs == i && PublishReady(p, r)
  {
    DivModUnique(r.computed, i, 0, p.bs);
  }

  function AttachOne(p: Pool, r: Req, b: nat): Req {
    r.(table := r.table + [b], computed := |r.table| * p.bs + p.bs, published := |r.table| + 1,
       parent := Link(r.parent, BlockTokens(r.tokens, p.bs, |r.table|)))
  }

  /** A cached copy under the next chain hash holds exactly the next block of this history. */
  lemma AttachedHolds(net: Net, mem: Memory, bs: nat, table: seq<nat>, tokens: seq<Token>, i: nat, e: Entry)
    requires bs >= 1 && MemoryShape(mem, bs) && |table| == i && Holds(net, mem, table, tokens, i * bs)
    requires i * bs + bs <= |tokens| && e.hash == ChainHash(tokens, bs, i + 1) && BlockHolds(net, mem, bs, e)
    ensures Holds(net, mem, table + [e.block], tokens, i * bs + bs)
  {
    hide RefCells, Flat, ChainHash, HashTokens;
    var n := i * bs;
    MulStep(i + 1, bs);
    ChainHashTokens(tokens, bs, i + 1);
    FlatLength(mem, bs, table);
    FlatAppend(mem, table, e.block);
    RefCellsPrefix(net, tokens[..n + bs], n);
    assert tokens[..n + bs][..n] == tokens[..n];
    var cells := RefCells(net, tokens[..n + bs]);
    assert cells == cells[..n] + cells[n..];
    assert Flat(mem, table)[..n] == Flat(mem, table);
    assert Flat(mem, table + [e.block])[..n + bs] == Flat(mem, table + [e.block]);
  }

  lemma AttachReqInv(net: Net, p: Pool, mem: Memory, r: Req, i: nat, e: Entry, q: Pool)
    requires p.bs >= 1 && |mem| == |p.ref| && MemoryShape(mem, p.bs) && CacheHolds(net, mem, p.bs, p.cache.lru)
    requires ReqInv(net, p, mem, r) && Attached(p, r, i) && i * p.bs + p.bs <= |r.tokens|
    requires e in p.cache.lru && e.hash == Link(r.parent, BlockTokens(r.tokens, p.bs, i))
    requires OneHash(p.cache.lru)
    requires q.bs == p.bs && forall x :: x in q.cache.lru <==> x in p.cache.lru
    ensures ReqInv(net, q, mem, AttachOne(p, r, e.block)) && Attached(q, AttachOne(p, r, e.block), i + 1)
  {
    hide RefCells, Flat, BlockTokens, HashTokens;
    var r' := AttachOne(p, r, e.block);
    MulStep(i + 1, p.bs);
    AttachedHolds(net, mem, p.bs, r.table, r.tokens, i, e);
    AttachedReady(q, r', i + 1);
    forall x, k | x in q.cache.lru && 0 <= k < |r'.table| && r'.table[k] == x.block
      ensures x.hash == ChainHash(r'.tokens, q.bs, k + 1)
    {
      if k == i {
        assert x == e;
      }
    }
  }

  lemma AttachOneStep(net: Net, p: Pool, mem: Memory, rest: multiset<nat>, r: Req, i: nat, e: Entry)
    requires Local(net, p, mem, rest, r) && p.bs >= 1 && Attached(p, r, i) && i * p.bs + p.bs <= |r.tokens|
    requires e in p.cache.lru && e.hash == Link(r.parent, BlockTokens(r.tokens, p.bs, i))
    ensures var q := Share(p, e); var r' := AttachOne(p, r, e.block);
      && q.bs == p.bs && q.caching == p.caching && Attached(q, r', i + 1)
      && Local(net, q, mem, rest, r') && Frame(p, mem, q, mem, rest)
  {
    hide ReqInv, BlockTokens, Attached, IsCached, Share;
    var held := rest + multiset(r.table);
    ShareKeeps(p, held, e);
    var q := Share(p, e);
    assert rest + multiset(r.table + [e.block]) == held + multiset{e.block};
    AttachReqInv(net, p, mem, r, i, e, q);
    KeepsSub(p, q, held, rest);
  }

  function AttachSome(r: Req, bs: nat, n: nat, table: seq<nat>, parent: Hash): Req {
    r.(computed := n * bs, published := n, table := table, parent := parent)
  }

  ghost predicate AttachDone(net: Net, p: Pool, mem: Memory, rest: multiset<nat>, q: Pool, r': Req, n: nat) {
    && q.bs == p.bs >= 1 && q.caching == p.caching
    && Local(net, q, mem, rest, r') && Frame(p, mem, q, mem, rest) && Attached(q, r', n)
  }

  /** The walk shares a chain of cached blocks that holds exactly this history. */
  lemma {:induction false} AttachLoopStep(net: Net, p: Pool, mem: Memory, rest: multiset<nat>, r: Req, i: nat, full: nat)
    requires Local(net, p, mem, rest, r) && p.bs >= 1 && Attached(p, r, i)
    requires full * p.bs <= |r.tokens|
    ensures var (q, n, table, parent) := AttachLoop(p, r.tokens, i, full, r.table, r.parent);
      && i <= n && (n <= full || n == i)
      && AttachDone(net, p, mem, rest, q, AttachSome(r, p.bs, n, table, parent), n)
    decreases full - i
  {
    hide Local, Frame, Share, Lookup, BlockTokens, ChainHash;
    FrameRefl(p, mem, rest);
    var h := Link(r.parent, BlockTokens(r.tokens, p.bs, i));
    if i < full && Lookup(p.cache, h).Some? {
      var e := Entry(h, Lookup(p.cache, h).value);
      LookupInPool(net, p, mem, rest, r, h);
      MulOrder(i, full, p.bs);
      AttachOneStep(net, p, mem, rest, r, i, e);
      AttachLoopStep(net, Share(p, e), mem, rest, AttachOne(p, r, e.block), i + 1, full);
      FrameTransitive(p, mem, Share(p, e), mem, AttachLoop(p, r.tokens, i, full, r.table, r.parent).0, mem, rest);
    }
  }

  /** A lookup names a live copy: the branch that drops an unreferenced one is never taken. */
  lemma LookupInPool(net: Net, p: Pool, mem: Memory, rest: multiset<nat>, r: Req, h: Hash)
    requires Local(net, p, mem, rest, r) && Lookup(p.cache, h).Some?
    ensures Entry(h, Lookup(p.cache, h).value) in p.cache.lru
    ensures Lookup(p.cache, h).value < |p.ref| && p.ref[Lookup(p.cache, h).value] >= 1
  {
    hide ReqInv, CacheHolds;
    LookupMeaning(p.cache, h);
    PoolInvMeaning(p, rest + multiset(r.table));
  }

  /** `attach_cached_prefix` on a request that holds nothing. */
  lemma AttachStep(net: Net, p: Pool, mem: Memory, rest: multiset<nat>, r: Req)
    requires Local(net, p, mem, rest, r) && p.bs >= 1 && r.table == [] && r.computed == 0
    ensures var (q, r') := AttachCachedPrefix(p, r);
      && q.bs == p.bs
      && Local(net, q, mem, rest, r') && Frame(p, mem, q, mem, rest) && PublishReady(q, r')
      && (r.tokens != [] ==> r'.computed < |r.tokens|)
      && r' == r.(table := r'.table, computed := r'.computed, cached := r'.cached, published := r'.published, parent := r'.parent)
      && (!p.caching ==> q == p && r'.table == [] && r'.computed == 0)
  {
    hide Local, Frame, AttachLoop;
    var r0 := r.(cached := 0, published := 0, parent := Root);
    FrameRefl(p, mem, rest);
    FreshLocal(net, p, mem, rest, r, r0);
    var full := if |r.tokens| == 0 then 0 else (|r.tokens| - 1) / p.bs;
    if r.tokens != [] {
      PositionInTable(|r.tokens| - 1, 0, p.bs);
    }
    if p.caching {
      AttachLoopStep(net, p, mem, rest, r0, 0, full);
      var (q, n, table, parent) := AttachLoop(p, r.tokens, 0, full, r.table, Root);
      MulOrder(n, full, p.bs);
      var r' := AttachSome(r0, p.bs, n, table, parent);
      AttachedReady(q, r', n);
      SameKvKeeps(net, q, mem, rest, r', r'.(cached := n * p.bs));
    }
  }

  lemma FreshLocal(net: Net, p: Pool, mem: Memory, rest: multiset<nat>, r: Req, r0: Req)
    requires Local(net, p, mem, rest, r) && r.table == [] && r.computed == 0 && p.bs >= 1
    requires r0 == r.(cached := 0, published := 0, parent := Root)
    ensures Local(net, p, mem, rest, r0) && PublishReady(p, r0)
    ensures Attached(p, r0, 0)
  {
    hide RefCells, Flat, PoolInv, CacheHolds;
  }

  // ----- publishing -----

  function PublishOne(p: Pool, r: Req): Req {
    r.(published := r.published + 1, parent := Link(r.parent, BlockTokens(r.tokens, p.bs, r.published)))
  }

  /** A computed full block holds the entries of the prefix its chain hash stands for. */
  lemma PublishedHolds(net: Net, mem: Memory, bs: nat, table: seq<nat>, tokens: seq<Token>, n: nat, i: nat)
    requires bs >= 1 && MemoryShape(mem, bs) && Holds(net, mem, table, tokens, n)
    requires i < |table| && i * bs + bs <= n
    ensures BlockHolds(net, mem, bs, Entry(ChainHash(tokens, bs, i + 1), table[i]))
  {
    hide RefCells, Flat, ChainHash, HashTokens;
    var m := i * bs;
    MulStep(i + 1, bs);
    ChainHashTokens(tokens, bs, i + 1);
    FlatBlock(mem, bs, table, i);
    RefCellsPrefix(net, tokens[..n], m + bs);
    assert tokens[..n][..m + bs] == tokens[..m + bs];
    var cells := RefCells(net, tokens[..m + bs]);
    assert cells == Flat(mem, table)[..n][..m + bs];
    assert cells[m..] == Flat(mem, table)[m..m + bs];
  }

  lemma PublishReqInv(net: Net, p: Pool, mem: Memory, r: Req, others: multiset<nat>, e: Entry, q: Pool)
    requires p.bs >= 1 && |mem| == |p.ref| && ReqInv(net, p, mem, r) && PublishReady(p, r) && p.caching
    requires r.published < |r.table| && r.published < r.computed / p.bs
    requires e == Entry(Link(r.parent, BlockTokens(r.tokens, p.bs, r.published)), r.table[r.published])
    requires multiset(r.table) - multiset{e.block} <= others
    requires Keeps(p, q, others)
    requires forall x :: x in q.cache.lru ==> x in p.cache.lru || x == e
    ensures ReqInv(net, q, mem, PublishOne(p, r)) && PublishReady(q, PublishOne(p, r))
  {
    hide RefCells, Flat, HashTokens, BlockTokens;
    var i := r.published;
    var r' := PublishOne(p, r);
    forall k | 0 <= k < |r.table| && k != i
      ensures r.table[k] in others
    {
      OtherEntryHeld(r.table, i, k);
    }
    assert e.hash == ChainHash(r.tokens, p.bs, i + 1);
  }

  lemma OtherEntryHeld(table: seq<nat>, i: nat, k: nat)
    requires i < |table| && k < |table| && k != i
    ensures table[k] in multiset(table) - multiset{table[i]}
  {
    assert table[k] in multiset(table);
    if table[k] == table[i] {
      if i < k {
        SharedTwice(table, i, k);
      } else {
        SharedTwice(table, k, i);
      }
    }
  }

  /** Publishing one computed block. */
  lemma PublishOneStep(net: Net, p: Pool, mem: Memory, rest: multiset<nat>, r: Req)
    requires Local(net, p, mem, rest, r) && p.bs >= 1 && PublishReady(p, r) && p.caching
    requires r.published < |r.table| && r.published < r.computed / p.bs
    ensures var h := Link(r.parent, BlockTokens(r.tokens, p.bs, r.published));
      var q := PublishEntry(p, Entry(h, r.table[r.published])); var r' := PublishOne(p, r);
      && q.bs == p.bs && q.caching
      && Local(net, q, mem, rest, r') && Frame(p, mem, q, mem, rest) && PublishReady(q, r')
  {
    hide RefCells, Flat, HashTokens, BlockTokens, PublishEntry, PoolInv, Holds, Exclusive;
    var i := r.published;
    var e := Entry(Link(r.parent, BlockTokens(r.tokens, p.bs, i)), r.table[i]);
    var others := rest + (multiset(r.table) - multiset{e.block});
    assert e.block in multiset(r.table);
    assert others + multiset{e.block} == rest + multiset(r.table);
    LocalShape(net, p, mem, rest, r);
    PublishKeeps(p, others, e);
    var q := PublishEntry(p, e);
    PublishReqInv(net, p, mem, r, others, e, q);
    PositionInTable(r.computed, 0, p.bs);
    MulOrder(i, r.computed / p.bs, p.bs);
    PublishedHolds(net, mem, p.bs, r.table, r.tokens, r.computed, i);
    KeepsSub(p, q, others, rest);
  }

  lemma {:induction false} PublishLoopStep(net: Net, p: Pool, mem: Memory, rest: multiset<nat>, r: Req, full: nat)
    requires Local(net, p, mem, rest, r) && p.bs >= 1 && PublishReady(p, r) && p.caching
    requires full <= |r.table| && full <= r.computed / p.bs
    ensures var (q, n, parent) := PublishLoop(p, r.tokens, r.table, r.published, full, r.parent);
      PublishDone(net, p, mem, rest, q, r, r.(published := n, parent := parent))
    decreases full - r.published
  {
    hide Local, Frame, PublishEntry, PublishReady, BlockTokens;
    FrameRefl(p, mem, rest);
    if r.published < full && r.published * p.bs + p.bs <= |r.tokens| {
      PublishOneStep(net, p, mem, rest, r);
      var h := Link(r.parent, BlockTokens(r.tokens, p.bs, r.published));
      var q := PublishEntry(p, Entry(h, r.table[r.published]));
      PublishLoopStep(net, q, mem, rest, PublishOne(p, r), full);
      FrameTransitive(p, mem, q, mem, PublishLoop(p, r.tokens, r.table, r.published, full, r.parent).0, mem, rest);
    } else {
      assert r.(published := r.published, parent := r.parent) == r;
    }
  }

  ghost predicate PublishDone(net: Net, p: Pool, mem: Memory, rest: multiset<nat>, q: Pool, r: Req, r': Req) {
    && q.bs == p.bs >= 1
    && Local(net, q, mem, rest, r') && Frame(p, mem, q, mem, rest) && PublishReady(q, r')
    && r' == r.(published := r'.published, parent := r'.parent)
  }

  /** `publish_full_blocks` inserts only blocks that are computed, under their own chain. */
  lemma PublishStep(net: Net, p: Pool, mem: Memory, rest: multiset<nat>, r: Req)
    requires Local(net, p, mem, rest, r) && p.bs >= 1 && PublishReady(p, r)
    ensures var (q, r') := PublishFullBlocks(p, r); PublishDone(net, p, mem, rest, q, r, r')
  {
    hide Local, Frame, PublishReady, PublishLoop;
    if p.caching {
      PublishLoopStep(net, p, mem, rest, r, Min(|r.table|, r.computed / p.bs));
    } else {
      FrameRefl(p, mem, rest);
    }
  }
}

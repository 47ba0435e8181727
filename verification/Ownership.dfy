/** The block manager's operations on one request, and the invariant each of them keeps:
    what a request has computed is in its blocks, and whatever it may still write is its
    alone. */
module Ownership {
  import opened Kv
  import opened BlockPool
  import opened Requests

  // ----- the operations -----

  /** `can_allocate_tokens`, with the eviction it may perform. */
  function CanAllocate(p: Pool, r: Req, n: int): (Pool, bool)
    requires p.bs >= 1
  {
    if n <= 0 then (p, true)
    else
      var needed := BlocksNeededFor(r.computed + n, p.bs) - |r.table|;
      if needed <= |p.free| then (p, true)
      else
        var q := EvictUnused(p, needed - |p.free|);
        (q, needed <= |q.free|)
  }

  /** `max_allocatable_tokens`, with the eviction it may perform. */
  function MaxAllocatable(p: Pool, r: Req, limit: int): (Pool, nat)
    requires p.bs >= 1
  {
    if limit <= 0 then (p, 0)
    else
      var extra := BlocksNeededFor(r.computed + limit, p.bs) - |r.table|;
      var q := if extra > |p.free| then EvictUnused(p, extra - |p.free|) else p;
      var n := Min(limit, (|r.table| + |q.free|) * p.bs - r.computed);
      (q, if n < 0 then 0 else n)
  }

  /** Appends fresh blocks until the table has `needed` entries. */
  function Grow(p: Pool, table: seq<nat>, needed: nat): (Pool, seq<nat>)
    decreases needed - |table|
  {
    if |table| >= needed then (p, table)
    else
      match AllocBlock(p)
      case None => (p, table)
      case Some((q, b)) => Grow(q, table + [b], needed)
  }

  /** Copy-on-write over table entries [i, end): a shared block about to be written is
      replaced by a fresh copy.  `copies` lists the (source, target) pairs. */
  function CowRange(p: Pool, table: seq<nat>, i: nat, end: nat): (result: (Pool, seq<nat>, seq<(nat, nat)>))
    decreases end - i
  {
    if i >= end || i >= |table| then (p, table, [])
    else if table[i] >= |p.ref| || p.ref[table[i]] <= 1 then CowRange(p, table, i + 1, end)
    else
      match AllocBlock(p)
      case None => (p, table, [])
      case Some((q, b)) =>
        var (q', table', copies) := CowRange(Decref(q, table[i]), table[i := b], i + 1, end);
        (q', table', [(table[i], b)] + copies)
  }

  datatype Allocation = Exhausted(pool: Pool) | Allocated(pool: Pool, req: Req, copies: seq<(nat, nat)>)

  /** `allocate_for_tokens`. */
  function AllocateForTokens(p: Pool, r: Req, n: nat): Allocation
    requires p.bs >= 1
  {
    var (p1, ok) := CanAllocate(p, r, n);
    if !ok then Exhausted(p1)
    else
      var end := r.computed + n;
      var (p2, table) := Grow(p1, r.table, BlocksNeededFor(end, p.bs));
      var r' := r.(epoch := p.epoch, table := table);
      if p.caching then
        var (p3, table', copies) := CowRange(p2, table, r.computed / p.bs, BlocksNeededFor(end, p.bs));
        Allocated(p3, r'.(table := table'), copies)
      else Allocated(p2, r', [])
  }

  /** Neither of the allocator's errors can be raised: the table grows as far as it has to,
      and no entry from the first one to be written is shared. */
  ghost predicate Grantable(p: Pool, r: Req, n: nat)
    requires p.bs >= 1
  {
    var (p1, ok) := CanAllocate(p, r, n);
    var (p2, table) := Grow(p1, r.table, BlocksNeededFor(r.computed + n, p.bs));
    ok && |table| >= BlocksNeededFor(r.computed + n, p.bs) && NoneShared(p2, table, r.computed / p.bs)
  }

  ghost predicate NoneShared(p: Pool, table: seq<nat>, from: nat) {
    forall i :: from <= i < |table| && table[i] < |p.ref| ==> p.ref[table[i]] <= 1
  }

  function Deallocate(p: Pool, r: Req): (Pool, Req) {
    (DecrefAll(p, r.table), r.(table := []))
  }

  /** Walks the chain over full blocks, sharing cached copies until the first miss. */
  function AttachLoop(p: Pool, tokens: seq<Token>, i: nat, full: nat, table: seq<nat>, parent: Hash):
    (Pool, nat, seq<nat>, Hash)
    decreases full - i
  {
    if i >= full then (p, i, table, parent)
    else
      var h := Link(parent, BlockTokens(tokens, p.bs, i));
      match Lookup(p.cache, h)
      case None => (p, i, table, parent)
      case Some(b) =>
        if b >= |p.ref| || p.ref[b] <= 0 then (p.(cache := Drop(p.cache, Entry(h, b))), i, table, parent)
        else AttachLoop(Share(p, Entry(h, b)), tokens, i + 1, full, table + [b], h)
  }

  /** `attach_cached_prefix`: at least one token is left uncached so that the last one is
      still sampled. */
  function AttachCachedPrefix(p: Pool, r: Req): (Pool, Req)
    requires p.bs >= 1
  {
    var r0 := r.(cached := 0, published := 0, parent := Root);
    if !p.caching then (p, r0)
    else
      var full := if |r.tokens| == 0 then 0 else (|r.tokens| - 1) / p.bs;
      var (q, blocks, table, parent) := AttachLoop(p, r.tokens, 0, full, r.table, Root);
      (q, r0.(computed := blocks * p.bs, cached := blocks * p.bs, published := blocks,
              table := table, parent := parent))
  }

  /** `truncate_kv`. */
  function TruncateKv(p: Pool, r: Req, n: nat): (Pool, Req)
    requires p.bs >= 1
  {
    var needed := BlocksNeededFor(n, p.bs);
    var (q, table) := TruncateTable(p, r.table, needed);
    (q, r.(table := table, published := Min(r.published, needed)))
  }

  function PublishLoop(p: Pool, tokens: seq<Token>, table: seq<nat>, i: nat, full: nat, parent: Hash):
    (Pool, nat, Hash)
    requires full <= |table|
    decreases full - i
  {
    if i >= full || i * p.bs + p.bs > |tokens| then (p, i, parent)
    else
      var h := Link(parent, BlockTokens(tokens, p.bs, i));
      PublishLoop(PublishEntry(p, Entry(h, table[i])), tokens, table, i + 1, full, h)
  }

  /** `publish_full_blocks`. */
  function PublishFullBlocks(p: Pool, r: Req): (Pool, Req)
    requires p.bs >= 1
  {
    if !p.caching then (p, r)
    else
      var full := Min(|r.table|, r.computed / p.bs);
      var (q, i, parent) := PublishLoop(p, r.tokens, r.table, r.published, full, r.parent);
      (q, r.(published := i, parent := parent))
  }

  // ----- the invariant -----

  /** Every cached copy holds the entries of the prefix its hash stands for. */
  ghost predicate CacheHolds(net: Net, mem: Memory, bs: nat, lru: seq<Entry>) {
    forall e :: e in lru ==> BlockHolds(net, mem, bs, e)
  }

  ghost predicate BlockHolds(net: Net, mem: Memory, bs: nat, e: Entry) {
    var prefix := HashTokens(e.hash);
    && e.block < |mem| && |prefix| >= bs
    && mem[e.block] == RefCells(net, prefix)[|prefix| - bs..]
  }

  /** Blocks that the request may still write: nobody else refers to them. */
  ghost predicate Exclusive(p: Pool, table: seq<nat>, from: nat) {
    forall i :: from <= i < |table| ==> table[i] < |p.ref| && p.ref[table[i]] == 1
  }

  /** A cached block of the table is cached under the table's own chain hash. */
  ghost predicate HashesMatch(p: Pool, r: Req) {
    forall e, i :: e in p.cache.lru && 0 <= i < |r.table| && r.table[i] == e.block ==>
      e.hash == ChainHash(r.tokens, p.bs, i + 1)
  }

  /** The next block to publish would be chained to the right parent. */
  ghost predicate PublishReady(p: Pool, r: Req)
    requires p.bs >= 1
  {
    p.caching ==> r.published <= r.computed / p.bs && r.parent == ChainHash(r.tokens, p.bs, r.published)
  }

  /** Needed as soon as there is a table; before that, attaching resets the parent. */
  ghost predicate PublishState(p: Pool, r: Req)
    requires p.bs >= 1
  {
    r.table != [] || r.status == Running ==> PublishReady(p, r)
  }

  ghost predicate ReqInv(net: Net, p: Pool, mem: Memory, r: Req)
    requires p.bs >= 1
  {
    && Holds(net, mem, r.table, r.tokens, r.computed)
    && Exclusive(p, r.table, r.computed / p.bs)
    && HashesMatch(p, r)
    && PublishState(p, r)
  }

  ghost predicate Local(net: Net, p: Pool, mem: Memory, rest: multiset<nat>, r: Req) {
    && p.bs >= 1
    && PoolInv(p, rest + multiset(r.table))
    && MemoryShape(mem, p.bs) && |mem| == |p.ref|
    && CacheHolds(net, mem, p.bs, p.cache.lru)
    && ReqInv(net, p, mem, r)
  }

  /** What a step for one request guarantees to every other one. */
  ghost predicate Frame(p: Pool, mem: Memory, p': Pool, mem': Memory, rest: multiset<nat>) {
    && Keeps(p, p', rest)
    && |mem'| == |mem|
    && (forall b :: b in rest && b < |mem| ==> mem'[b] == mem[b])
  }

  lemma TableInHeld(table: seq<nat>, held: multiset<nat>)
    requires multiset(table) <= held
    ensures forall b :: b in table ==> b in held
    ensures forall i :: 0 <= i < |table| ==> table[i] in held
  {
    forall b | b in table
      ensures b in held
    {
      assert b in multiset(table);
    }
  }

  lemma FrameKeepsBlocks(p: Pool, p': Pool, r: Req, from: nat)
    requires p.bs >= 1 && (forall i :: 0 <= i < |r.table| ==> r.table[i] < |p.ref|)
    requires |p'.ref| == |p.ref| && p'.bs == p.bs
    requires forall b :: b in r.table && b < |p.ref| && p.ref[b] == 1 ==> p'.ref[b] == 1
    requires forall e :: e in p'.cache.lru && e.block in r.table ==> e in p.cache.lru
    ensures Exclusive(p, r.table, from) ==> Exclusive(p', r.table, from)
    ensures HashesMatch(p, r) ==> HashesMatch(p', r)
  {
    assert forall i :: 0 <= i < |r.table| ==> r.table[i] in r.table;
  }

  lemma PublishStateSame(p: Pool, p': Pool, r: Req)
    requires p.bs >= 1 && p'.bs == p.bs && p'.caching == p.caching && PublishState(p, r)
    ensures PublishState(p', r)
  {
  }

  lemma HoldsSame(net: Net, mem: Memory, mem': Memory, table: seq<nat>, tokens: seq<Token>, n: nat)
    requires Holds(net, mem, table, tokens, n) && |mem'| == |mem|
    requires forall b :: b in table && b < |mem| ==> mem'[b] == mem[b]
    ensures InPool(table, |mem|) && Flat(mem', table) == Flat(mem, table)
    ensures Holds(net, mem', table, tokens, n)
  {
    hide RefCells, Flat;
    FlatSame(mem, mem', table);
  }

  lemma FrameTable(p: Pool, mem: Memory, p': Pool, mem': Memory, rest: multiset<nat>, table: seq<nat>)
    requires Frame(p, mem, p', mem', rest) && multiset(table) <= rest
    ensures forall b :: b in table && b < |mem| ==> mem'[b] == mem[b]
    ensures forall b :: b in table && b < |p.ref| && p.ref[b] == 1 ==> p'.ref[b] == 1
    ensures forall e :: e in p'.cache.lru && e.block in table ==> e in p.cache.lru
    ensures |mem'| == |mem| && |p'.ref| == |p.ref| && p'.bs == p.bs && p'.caching == p.caching
  {
    TableInHeld(table, rest);
  }

  /** Other requests keep their invariant, and whatever their blocks hold. */
  lemma FrameKeeps(net: Net, p: Pool, mem: Memory, p': Pool, mem': Memory, rest: multiset<nat>, r: Req)
    requires p.bs >= 1 && |mem| == |p.ref|
    requires Frame(p, mem, p', mem', rest) && multiset(r.table) <= rest
    requires ReqInv(net, p, mem, r)
    ensures p'.bs >= 1 && ReqInv(net, p', mem', r)
    ensures InPool(r.table, |mem|) && Flat(mem', r.table) == Flat(mem, r.table)
  {
    hide Flat, Exclusive, HashesMatch, PublishState, Frame, Holds;
    FrameTable(p, mem, p', mem', rest, r.table);
    HoldsSame(net, mem, mem', r.table, r.tokens, r.computed);
    PublishStateSame(p, p', r);
    FrameKeepsBlocks(p, p', r, r.computed / p.bs);
  }
}

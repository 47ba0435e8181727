/** The system-wide invariant, and how one request's step is lifted to it. */
module SystemInv {
  import opened Kv
  import opened BlockPool
  import opened Requests
  import opened Ownership
  import opened OwnershipSteps
  import opened System

  // ----- references held by block tables -----

  ghost function Held(reqs: seq<Req>): multiset<nat> {
    if reqs == [] then multiset{} else Held(reqs[..|reqs| - 1]) + multiset(reqs[|reqs| - 1].table)
  }

  /** What everybody but `k` holds. */
  ghost function Rest(reqs: seq<Req>, k: nat): multiset<nat>
    requires k < |reqs|
  {
    Held(reqs[..k] + reqs[k + 1..])
  }

  lemma {:induction false} HeldConcat(a: seq<Req>, b: seq<Req>)
    ensures Held(a + b) == Held(a) + Held(b)
    decreases |b|
  {
    if b == [] {
      assert a + b == a;
    } else {
      var init := b[..|b| - 1];
      assert (a + b)[..|a + b| - 1] == a + init;
      HeldConcat(a, init);
    }
  }

  lemma HeldSplit(reqs: seq<Req>, k: nat)
    requires k < |reqs|
    ensures Held(reqs) == Rest(reqs, k) + multiset(reqs[k].table)
  {
    hide Held;
    var a, x, b := reqs[..k], [reqs[k]], reqs[k + 1..];
    HeldConcat(a, b);
    HeldConcat(a, x + b);
    HeldConcat(x, b);
    HeldOne(reqs[k]);
    SplitAt(reqs, k);
  }

  lemma SplitAt<T>(s: seq<T>, k: nat)
    requires k < |s|
    ensures s == s[..k] + ([s[k]] + s[k + 1..])
  {
  }

  lemma HeldOne(r: Req)
    ensures Held([r]) == multiset(r.table)
  {
    assert [r][..0] == [];
    assert Held([]) == multiset{};
  }

  lemma RestUpdate(reqs: seq<Req>, k: nat, r: Req)
    requires k < |reqs|
    ensures Rest(reqs[k := r], k) == Rest(reqs, k)
  {
    assert reqs[k := r][..k] + reqs[k := r][k + 1..] == reqs[..k] + reqs[k + 1..];
  }

  lemma TableInRest(reqs: seq<Req>, k: nat, j: nat)
    requires k < |reqs| && j < |reqs| && j != k
    ensures multiset(reqs[j].table) <= Rest(reqs, k)
  {
    var others := reqs[..k] + reqs[k + 1..];
    var i := if j < k then j else j - 1;
    assert others[i] == reqs[j];
    HeldSplit(others, i);
  }

  lemma HeldAppend(reqs: seq<Req>, r: Req)
    ensures Held(reqs + [r]) == Held(reqs) + multiset(r.table)
    ensures Rest(reqs + [r], |reqs|) == Held(reqs)
  {
    assert (reqs + [r])[..|reqs|] == reqs;
    assert (reqs + [r])[..|reqs|] + (reqs + [r])[|reqs| + 1..] == reqs;
  }

  // ----- the KV invariant -----

  ghost predicate KvInv(net: Net, s: Sys) {
    && s.pool.bs >= 1
    && PoolInv(s.pool, Held(s.reqs))
    && MemoryShape(s.mem, s.pool.bs) && |s.mem| == |s.pool.ref|
    && CacheHolds(net, s.mem, s.pool.bs, s.pool.cache.lru)
    && forall k :: 0 <= k < |s.reqs| ==> ReqInv(net, s.pool, s.mem, s.reqs[k])
  }

  lemma At(net: Net, s: Sys, k: nat)
    requires KvInv(net, s) && k < |s.reqs|
    ensures Local(net, s.pool, s.mem, Rest(s.reqs, k), s.reqs[k])
  {
    hide ReqInv, PoolInv, CacheHolds, Rest, Held;
    HeldSplit(s.reqs, k);
  }

  /** A framed local step of request `k` keeps everybody's invariant, and everybody else's
      blocks read as before. */
  lemma Lift(net: Net, s: Sys, k: nat, p: Pool, mem: Memory, r: Req)
    requires KvInv(net, s) && k < |s.reqs|
    requires Local(net, p, mem, Rest(s.reqs, k), r)
    requires Frame(s.pool, s.mem, p, mem, Rest(s.reqs, k))
    ensures KvInv(net, s.(pool := p, mem := mem, reqs := s.reqs[k := r]))
    ensures forall j :: 0 <= j < |s.reqs| && j != k && InPool(s.reqs[j].table, |s.mem|) ==>
      InPool(s.reqs[j].table, |mem|) && Flat(mem, s.reqs[j].table) == Flat(s.mem, s.reqs[j].table)
  {
    hide ReqInv, PoolInv, CacheHolds, Rest, Held, Flat, Frame, InPool;
    var s' := s.(pool := p, mem := mem, reqs := s.reqs[k := r]);
    RestUpdate(s.reqs, k, r);
    HeldSplit(s'.reqs, k);
    forall j | 0 <= j < |s.reqs| && j != k
      ensures ReqInv(net, p, mem, s.reqs[j])
      ensures InPool(s.reqs[j].table, |s.mem|) && InPool(s.reqs[j].table, |mem|)
      ensures Flat(mem, s.reqs[j].table) == Flat(s.mem, s.reqs[j].table)
    {
      TableInRest(s.reqs, k, j);
      FrameKeeps(net, s.pool, s.mem, p, mem, Rest(s.reqs, k), s.reqs[j]);
      ReqInvInPool(net, s.pool, s.mem, s.reqs[j]);
      ReqInvInPool(net, p, mem, s.reqs[j]);
    }
  }

  lemma ReqInvInPool(net: Net, p: Pool, mem: Memory, r: Req)
    requires p.bs >= 1 && ReqInv(net, p, mem, r)
    ensures InPool(r.table, |mem|)
  {
    hide RefCells, Flat, ChainHash;
  }

  /** Write exclusivity: a block that covers a position a request has not computed yet is in
      no other table, occurs once in its own, and is not in the cache. */
  lemma WriteExclusive(net: Net, s: Sys, k: nat, i: nat)
    requires KvInv(net, s) && k < |s.reqs|
    requires i < |s.reqs[k].table| && s.reqs[k].computed < i * s.pool.bs + s.pool.bs
    ensures var b := s.reqs[k].table[i];
      && s.pool.ref[b] == 1 && !IsCached(s.pool.cache, b) && Once(s.reqs[k].table, i)
      && forall j :: 0 <= j < |s.reqs| && j != k ==> b !in s.reqs[j].table
  {
    hide PoolInv, CacheHolds, Rest, Held, Flat, RefCells, ChainHash;
    var bs, b := s.pool.bs, s.reqs[k].table[i];
    At(net, s, k);
    MulStep(i + 1, bs);
    PositionInTable(s.reqs[k].computed, i + 1, bs);
    ExclusiveBlock(net, s.pool, s.mem, Rest(s.reqs, k), s.reqs[k], i);
    forall j | 0 <= j < |s.reqs| && j != k
      ensures b !in s.reqs[j].table
    {
      TableInRest(s.reqs, k, j);
      TableInHeld(s.reqs[j].table, Rest(s.reqs, k));
    }
  }

  /** Reference counts: every count is the number of table entries plus the cache's own
      reference, and the free list is exactly the blocks with none. */
  lemma RefcountConservation(net: Net, s: Sys, b: nat)
    requires KvInv(net, s) && b < |s.pool.ref|
    ensures s.pool.ref[b] == Held(s.reqs)[b] + (if IsCached(s.pool.cache, b) then 1 else 0)
    ensures b in s.pool.free <==> Held(s.reqs)[b] == 0 && !IsCached(s.pool.cache, b)
    ensures Distinct(s.pool.free)
  {
  }
}

/** Rebuilding a block table from host memory, sharing whatever the prefix cache still has. */
module Restore {
  import opened Kv
  import opened BlockPool
  import opened Requests
  import opened Ownership
  import opened OwnershipSteps
  import opened Transfer
  import Reclaim

  // ----- the device side of a plan -----

  /** Which of the first `blocks` blocks of a history the prefix cache still has, in full. */
  function DeviceHits(p: Pool, tokens: seq<Token>, valid: nat, blocks: nat): (hits: seq<Option<nat>>)
    requires p.bs >= 1
    ensures |hits| == blocks
  {
    seq(blocks, i requires 0 <= i => Hit(p, tokens, valid, i))
  }

  function Hit(p: Pool, tokens: seq<Token>, valid: nat, i: nat): Option<nat> {
    if p.caching && i * p.bs + p.bs <= valid then
      var found := Lookup(p.cache, ChainHash(tokens, p.bs, i + 1));
      if found.Some? && found.value < |p.ref| && p.ref[found.value] > 0 then found else None
    else None
  }

  function Pins(hits: seq<Option<nat>>): seq<nat> {
    if hits == [] then []
    else Pins(hits[..|hits| - 1]) + (if hits[|hits| - 1].Some? then [hits[|hits| - 1].value] else [])
  }

  function IncrefAll(p: Pool, blocks: seq<nat>): Pool {
    if blocks == [] then p else Incref(IncrefAll(p, blocks[..|blocks| - 1]), blocks[|blocks| - 1])
  }

  /** Device hits where there are any, fresh blocks in order everywhere else. */
  function Weave(hits: seq<Option<nat>>, added: seq<nat>): seq<nat>
    decreases |hits|
  {
    if hits == [] then []
    else
      var last := hits[|hits| - 1];
      if last.Some? then Weave(hits[..|hits| - 1], added) + [last.value]
      else if added == [] then Weave(hits[..|hits| - 1], []) + [0]
      else Weave(hits[..|hits| - 1], added[..|added| - 1]) + [added[|added| - 1]]
  }

  datatype Rebuilt = Refused(pool: Pool) | Rebuilt(pool: Pool, table: seq<nat>)

  /** Pins every hit first, then makes room for `needed` blocks, then allocates what is
      missing.  A refusal, or a copy that fails, releases everything it took. */
  function RebuildTable(p: Pool, hits: seq<Option<nat>>, needed: nat, copyFails: bool): Rebuilt
    requires |Pins(hits)| <= |hits|
  {
    var pins := Pins(hits);
    var p1 := IncrefAll(p, pins);
    var p2 := EvictUnused(p1, needed - |p1.free|);
    if |p2.free| < needed then Refused(DecrefAll(p2, pins))
    else
      var (p3, added) := Grow(p2, [], |hits| - |pins|);
      if copyFails then Refused(DecrefAll(p3, pins + added))
      else Rebuilt(p3, Weave(hits, added))
  }

  // ----- what it does to the pool -----

  lemma {:induction false} PinsCount(hits: seq<Option<nat>>)
    ensures |Pins(hits)| <= |hits|
  {
    if hits != [] {
      PinsCount(hits[..|hits| - 1]);
    }
  }

  lemma IncrefKeeps(p: Pool, held: multiset<nat>, b: nat)
    requires PoolInv(p, held) && IsCached(p.cache, b)
    ensures b < |p.ref| && PoolInv(Incref(p, b), held + multiset{b}) && Keeps(p, Incref(p, b), held)
    ensures Incref(p, b).cache == p.cache
  {
    var h: Hash :| Entry(h, b) in p.cache.lru;
    assert Entry(h, b).block < |p.ref|;
    assert forall x :: x != b ==> (held + multiset{b})[x] == held[x];
  }

  lemma {:induction false} IncrefAllKeeps(p: Pool, held: multiset<nat>, blocks: seq<nat>)
    requires PoolInv(p, held) && forall b :: b in blocks ==> IsCached(p.cache, b)
    ensures var q := IncrefAll(p, blocks);
      PoolInv(q, held + multiset(blocks)) && Keeps(p, q, held) && q.cache == p.cache
  {
    hide PoolInv, IsCached, Keeps, Incref;
    if blocks == [] {
      assert held + multiset(blocks) == held;
      KeepsRefl(p, held);
    } else {
      var init, last := blocks[..|blocks| - 1], blocks[|blocks| - 1];
      assert blocks == init + [last] && forall b :: b in init ==> b in blocks;
      IncrefAllKeeps(p, held, init);
      var q := IncrefAll(p, init);
      assert last in blocks;
      IncrefKeeps(q, held + multiset(init), last);
      assert held + multiset(blocks) == held + multiset(init) + multiset{last};
      KeepsSub(q, Incref(q, last), held + multiset(init), held);
      KeepsTransitive(p, q, Incref(q, last), held);
    }
  }

  lemma KeepsRefl(p: Pool, held: multiset<nat>)
    ensures Keeps(p, p, held)
  {
  }

  /** Freshly allocated blocks: nobody's, uncached, counted once. */
  ghost predicate Unshared(p: Pool, rest: multiset<nat>, b: nat) {
    b < |p.ref| && p.ref[b] == 1 && !IsCached(p.cache, b) && b !in rest
  }

  lemma {:induction false} GrowPool(p: Pool, held: multiset<nat>, table: seq<nat>, needed: nat)
    requires PoolInv(p, held + multiset(table)) && needed <= |table| + Available(p)
    requires forall b :: b in table ==> Unshared(p, held, b)
    ensures var (q, table') := Grow(p, table, needed);
      && PoolInv(q, held + multiset(table')) && Keeps(p, q, held)
      && |table'| == (if |table| >= needed then |table| else needed) && table <= table'
      && (forall b :: b in table' ==> Unshared(q, held, b))
      && (forall e :: e in q.cache.lru ==> e in p.cache.lru)
    decreases needed - |table|
  {
    hide PoolInv, AllocBlock, Available, Keeps, IsCached;
    KeepsRefl(p, held);
    if |table| < needed {
      AllocBlockKeeps(p, held + multiset(table));
      var (q, b) := AllocBlock(p).value;
      assert held + multiset(table + [b]) == held + multiset(table) + multiset{b};
      KeepsSub(p, q, held + multiset(table), held);
      StillUnshared(p, held, table, q, b);
      GrowPool(q, held, table + [b], needed);
      KeepsTransitive(p, q, Grow(q, table + [b], needed).0, held);
    }
  }

  lemma StillUnshared(p: Pool, held: multiset<nat>, table: seq<nat>, q: Pool, b: nat)
    requires forall x :: x in table ==> Unshared(p, held, x)
    requires Keeps(p, q, held + multiset(table)) && b < |p.ref| && (held + multiset(table))[b] == 0
    requires q.ref[b] == 1 && !IsCached(q.cache, b) && |q.ref| == |p.ref|
    requires forall e :: e in q.cache.lru ==> e in p.cache.lru
    ensures forall x :: x in table + [b] ==> Unshared(q, held, x)
  {
    forall x | x in table
      ensures Unshared(q, held, x)
    {
      assert x in multiset(table) && x in held + multiset(table);
      CachedFewer(p.cache, q.cache, x);
    }
  }

  lemma CachedFewer(c: Cache, c': Cache, b: nat)
    requires forall e :: e in c'.lru ==> e in c.lru
    ensures IsCached(c', b) ==> IsCached(c, b)
  {
    if h: Hash :| Entry(h, b) in c'.lru {
      assert Entry(h, b) in c.lru;
    }
  }

  // ----- eviction spares what requests refer to -----

  ghost predicate Spares(p: Pool, q: Pool, held: multiset<nat>) {
    forall e :: e in p.cache.lru && e.block in held ==> e in q.cache.lru
  }

  lemma SparesTrans(p: Pool, p1: Pool, q: Pool, held: multiset<nat>)
    requires Spares(p, p1, held) && Spares(p1, q, held)
    ensures Spares(p, q, held)
  {
  }

  lemma SparesSub(p: Pool, q: Pool, held: multiset<nat>, sub: multiset<nat>)
    requires Spares(p, q, held) && sub <= held
    ensures Spares(p, q, sub)
  {
  }

  lemma IdleIsUnheld(p: Pool, held: multiset<nat>, e: Entry)
    requires PoolInv(p, held) && e in p.cache.lru && IsIdle(p.ref, e)
    ensures held[e.block] == 0
  {
    assert Entry(e.hash, e.block) in p.cache.lru;
  }

  lemma {:induction false} DropSpares(p: Pool, held: multiset<nat>, victims: seq<Entry>)
    requires PoolInv(p, held) && Distinct(victims)
    requires forall e :: e in victims ==> e in p.cache.lru && IsIdle(p.ref, e)
    ensures Spares(p, DropEntries(p, victims), held)
    decreases |victims|
  {
    hide PoolInv, IdleCount, IsIdle, Drop, Decref, Keeps;
    if victims != [] {
      var e := victims[0];
      assert e in victims && forall x :: x in victims[1..] ==> x in victims && x != e;
      DropIdleCounts(p, held, e);
      IdleIsUnheld(p, held, e);
      var p1 := Decref(p.(cache := Drop(p.cache, e)), e.block);
      assert Spares(p, p1, held);
      DropSpares(p1, held, victims[1..]);
    }
  }

  lemma EvictSpares(p: Pool, held: multiset<nat>, n: int)
    requires PoolInv(p, held)
    ensures Spares(p, EvictUnused(p, n), held)
  {
    if p.caching && n > 0 {
      VictimsAreIdle(p.cache.lru, p.ref, n);
      VictimsDistinct(p.cache.lru, p.ref, n);
      DropSpares(p, held, Victims(p.cache.lru, p.ref, n));
    }
  }

  lemma {:induction false} GrowSpares(p: Pool, held: multiset<nat>, table: seq<nat>, needed: nat)
    requires PoolInv(p, held + multiset(table)) && needed <= |table| + Available(p)
    ensures Spares(p, Grow(p, table, needed).0, held)
    decreases needed - |table|
  {
    hide PoolInv, Available, Keeps, IsCached, EvictUnused;
    if |table| < needed {
      AllocBlockKeeps(p, held + multiset(table));
      EvictSpares(p, held + multiset(table), 1);
      var (q, b) := AllocBlock(p).value;
      assert held + multiset(table + [b]) == held + multiset(table) + multiset{b};
      assert Spares(p, q, held + multiset(table));
      SparesSub(p, q, held + multiset(table), held);
      GrowSpares(q, held, table + [b], needed);
      SparesTrans(p, q, Grow(q, table + [b], needed).0, held);
    }
  }

  // ----- the rebuilt table -----

  lemma {:induction false} WeaveCounts(hits: seq<Option<nat>>, added: seq<nat>)
    requires |Pins(hits)| + |added| == |hits|
    ensures |Weave(hits, added)| == |hits|
    ensures multiset(Weave(hits, added)) == multiset(Pins(hits)) + multiset(added)
    decreases |hits|
  {
    if hits != [] {
      var init, last := hits[..|hits| - 1], hits[|hits| - 1];
      PinsCount(init);
      if last.Some? {
        WeaveCounts(init, added);
      } else {
        assert added == added[..|added| - 1] + [added[|added| - 1]];
        WeaveCounts(init, added[..|added| - 1]);
      }
    }
  }

  lemma {:induction false} WeaveLength(hits: seq<Option<nat>>, added: seq<nat>)
    ensures |Weave(hits, added)| == |hits|
    decreases |hits|
  {
    if hits != [] {
      var init := hits[..|hits| - 1];
      WeaveLength(init, if hits[|hits| - 1].Some? || added == [] then added else added[..|added| - 1]);
    }
  }

  lemma PinsStep(hits: seq<Option<nat>>)
    requires hits != []
    ensures |Pins(hits)| == |Pins(hits[..|hits| - 1])| + (if hits[|hits| - 1].Some? then 1 else 0)
  {
  }

  lemma {:induction false} WeaveMeaning(hits: seq<Option<nat>>, added: seq<nat>, i: nat)
    requires |Pins(hits)| + |added| == |hits| && i < |hits|
    ensures |Weave(hits, added)| == |hits|
    ensures if hits[i].Some? then Weave(hits, added)[i] == hits[i].value else Weave(hits, added)[i] in added
    decreases |hits|
  {
    hide Pins;
    var init, last := hits[..|hits| - 1], hits[|hits| - 1];
    WeaveLength(hits, added);
    PinsStep(hits);
    PinsCount(init);
    var some := if last.Some? then added else added[..|added| - 1];
    WeaveLength(init, some);
    if i < |init| {
      WeaveMeaning(init, some, i);
    }
  }

  /** Every hit is a cached copy of a full valid block of this very history. */
  ghost predicate HitsValid(p: Pool, tokens: seq<Token>, valid: nat, hits: seq<Option<nat>>) {
    forall i :: 0 <= i < |hits| && hits[i].Some? ==>
      i * p.bs + p.bs <= valid && Entry(ChainHash(tokens, p.bs, i + 1), hits[i].value) in p.cache.lru
  }

  lemma DeviceHitsValid(p: Pool, held: multiset<nat>, tokens: seq<Token>, valid: nat, blocks: nat)
    requires PoolInv(p, held)
    ensures HitsValid(p, tokens, valid, DeviceHits(p, tokens, valid, blocks))
  {
    hide ChainHash;
    var hits := DeviceHits(p, tokens, valid, blocks);
    forall i | 0 <= i < |hits| && hits[i].Some?
      ensures Entry(ChainHash(tokens, p.bs, i + 1), hits[i].value) in p.cache.lru
    {
      LookupMeaning(p.cache, ChainHash(tokens, p.bs, i + 1));
    }
  }

  lemma {:induction false} PinsMembers(hits: seq<Option<nat>>, b: nat)
    ensures b in Pins(hits) <==> exists i :: 0 <= i < |hits| && hits[i] == Some(b)
  {
    if hits != [] {
      var init := hits[..|hits| - 1];
      PinsMembers(init, b);
      if i :| 0 <= i < |hits| && hits[i] == Some(b) {
        assert i < |init| ==> init[i] == Some(b);
      }
      if i :| 0 <= i < |init| && init[i] == Some(b) {
        assert hits[i] == Some(b);
      }
      assert hits[|hits| - 1] == Some(b) ==> b in Pins(hits);
    }
  }

  lemma PinsCached(p: Pool, tokens: seq<Token>, valid: nat, hits: seq<Option<nat>>)
    requires HitsValid(p, tokens, valid, hits)
    ensures forall b :: b in Pins(hits) ==> IsCached(p.cache, b)
  {
    hide ChainHash;
    forall b | b in Pins(hits)
      ensures IsCached(p.cache, b)
    {
      PinsMembers(hits, b);
      var i :| 0 <= i < |hits| && hits[i] == Some(b);
      assert Entry(ChainHash(tokens, p.bs, i + 1), b) in p.cache.lru;
    }
  }

  /** What a request's own pool work never does to others: their blocks stay theirs, nothing
      they refer to is evicted, and nothing is published. */
  ghost predicate Calm(p: Pool, q: Pool, held: multiset<nat>) {
    Keeps(p, q, held) && Spares(p, q, held) && forall e :: e in q.cache.lru ==> e in p.cache.lru
  }

  lemma CalmTrans(p: Pool, p1: Pool, q: Pool, held: multiset<nat>, more: multiset<nat>)
    requires Calm(p, p1, held) && Calm(p1, q, held + more)
    ensures Calm(p, q, held)
  {
  }

  /** The table is the hits where there were hits, and blocks of nobody else's otherwise. */
  ghost predicate Assembled(p: Pool, rest: multiset<nat>, hits: seq<Option<nat>>, q: Pool, table: seq<nat>) {
    && PoolInv(q, rest + multiset(table)) && Calm(p, q, rest)
    && |table| == |hits|
    && forall i :: 0 <= i < |table| ==> if hits[i].Some? then table[i] == hits[i].value else Unshared(q, rest, table[i])
  }

  /** Releasing exactly what was taken. */
  ghost predicate RolledBack(p: Pool, rest: multiset<nat>, q: Pool) {
    PoolInv(q, rest) && Calm(p, q, rest)
  }

  lemma PinCalm(p: Pool, rest: multiset<nat>, pins: seq<nat>)
    requires PoolInv(p, rest) && forall b :: b in pins ==> IsCached(p.cache, b)
    ensures PoolInv(IncrefAll(p, pins), rest + multiset(pins)) && Calm(p, IncrefAll(p, pins), rest)
  {
    hide PoolInv, IsCached, Keeps, IncrefAll;
    IncrefAllKeeps(p, rest, pins);
  }

  lemma EvictCalm(p: Pool, held: multiset<nat>, n: int)
    requires PoolInv(p, held)
    ensures PoolInv(EvictUnused(p, n), held) && Calm(p, EvictUnused(p, n), held)
  {
    hide PoolInv, EvictUnused, IdleCount, Keeps, Spares;
    EvictUnusedKeeps(p, held, n);
    EvictSpares(p, held, n);
  }

  lemma GrowCalm(p: Pool, held: multiset<nat>, n: nat)
    requires PoolInv(p, held) && n <= Available(p)
    ensures var (q, added) := Grow(p, [], n);
      && PoolInv(q, held + multiset(added)) && Calm(p, q, held) && |added| == n
      && forall b :: b in added ==> Unshared(q, held, b)
  {
    hide PoolInv, Available, Keeps, IsCached, Grow, Spares, Unshared;
    assert held + multiset([]) == held;
    GrowPool(p, held, [], n);
    GrowSpares(p, held, [], n);
  }

  lemma ReleaseCalm(p: Pool, rest: multiset<nat>, q: Pool, taken: seq<nat>)
    requires PoolInv(q, rest + multiset(taken)) && Calm(p, q, rest)
    ensures RolledBack(p, rest, DecrefAll(q, taken))
  {
    hide PoolInv, DecrefAll, Keeps;
    DecrefAllKeeps(q, rest, taken);
    KeepsTransitive(p, q, DecrefAll(q, taken), rest);
  }

  lemma RebuildTableKeeps(p: Pool, rest: multiset<nat>, tokens: seq<Token>, valid: nat, hits: seq<Option<nat>>, needed: nat, copyFails: bool)
    requires PoolInv(p, rest) && HitsValid(p, tokens, valid, hits) && |hits| - |Pins(hits)| <= needed
    ensures |Pins(hits)| <= |hits|
    ensures var rebuilt := RebuildTable(p, hits, needed, copyFails);
      if rebuilt.Refused? then RolledBack(p, rest, rebuilt.pool)
      else !copyFails && Assembled(p, rest, hits, rebuilt.pool, rebuilt.table)
  {
    hide PoolInv, IsCached, EvictUnused, Grow, IncrefAll, DecrefAll, Available, Calm, Unshared, HitsValid, Weave, RolledBack;
    PinsCount(hits);
    PinsCached(p, tokens, valid, hits);
    var pins := Pins(hits);
    PinCalm(p, rest, pins);
    var p1 := IncrefAll(p, pins);
    EvictCalm(p1, rest + multiset(pins), needed - |p1.free|);
    var p2 := EvictUnused(p1, needed - |p1.free|);
    CalmTrans(p, p1, p2, rest, multiset(pins));
    if |p2.free| < needed {
      ReleaseCalm(p, rest, p2, pins);
    } else {
      FreeIsAvailable(p2);
      GrowCalm(p2, rest + multiset(pins), |hits| - |pins|);
      var (p3, added) := Grow(p2, [], |hits| - |pins|);
      CalmTrans(p, p2, p3, rest, multiset(pins));
      assert rest + multiset(pins + added) == rest + multiset(pins) + multiset(added);
      if copyFails {
        ReleaseCalm(p, rest, p3, pins + added);
      } else {
        WeaveCounts(hits, added);
        assert rest + multiset(Weave(hits, added)) == rest + multiset(pins) + multiset(added);
        WovenUnshared(p3, rest, pins, added, hits);
      }
    }
  }

  // ----- when there is room -----

  /** Pinned blocks that only the cache holds: eviction can no longer take them. */
  function IdlePins(p: Pool, pins: seq<nat>): set<nat> {
    set b | b in pins && b < |p.ref| && p.ref[b] == 1
  }

  lemma CachedCount(p: Pool, held: multiset<nat>, b: nat)
    requires PoolInv(p, held) && IsCached(p.cache, b)
    ensures b < |p.ref| && (p.ref[b] == 1 <==> held[b] == 0)
  {
    var h: Hash :| Entry(h, b) in p.cache.lru;
    assert Entry(h, b).block < |p.ref|;
  }

  /** Pinning costs exactly the pinned blocks that were idle. */
  lemma PinnedRoom(p: Pool, rest: multiset<nat>, q: Pool, pins: seq<nat>)
    requires PoolInv(p, rest) && PoolInv(q, rest + multiset(pins)) && |q.ref| == |p.ref|
    requires forall b :: b in pins ==> IsCached(p.cache, b)
    ensures Available(q) + |IdlePins(p, pins)| == Available(p)
  {
    hide PoolInv, Available, IsCached;
    var held := rest + multiset(pins);
    Reclaim.AvailableIsUnheld(p, rest);
    Reclaim.AvailableIsUnheld(q, held);
    forall b: nat
      ensures b in Reclaim.Unheld(p, rest) <==> b in Reclaim.Unheld(q, held) || b in IdlePins(p, pins)
      ensures !(b in Reclaim.Unheld(q, held) && b in IdlePins(p, pins))
    {
      assert held[b] == rest[b] + multiset(pins)[b];
      assert b in pins <==> b in multiset(pins);
      if b in pins {
        CachedCount(p, rest, b);
      }
    }
    assert Reclaim.Unheld(p, rest) == Reclaim.Unheld(q, held) + IdlePins(p, pins);
    assert Reclaim.Unheld(q, held) !! IdlePins(p, pins);
  }

  /** Eviction makes room for `needed` blocks exactly when free and idle blocks suffice. */
  lemma EvictedRoom(p: Pool, held: multiset<nat>, needed: int)
    requires PoolInv(p, held)
    ensures |EvictUnused(p, needed - |p.free|).free| >= needed <==> needed <= Available(p)
  {
    hide PoolInv, EvictUnused, IdleCount, Keeps;
    EvictUnusedKeeps(p, held, needed - |p.free|);
  }

  /** The rebuild is refused exactly when a copy fails or the blocks run out. */
  lemma RebuildExact(p: Pool, rest: multiset<nat>, tokens: seq<Token>, valid: nat, hits: seq<Option<nat>>, needed: nat, copyFails: bool)
    requires PoolInv(p, rest) && HitsValid(p, tokens, valid, hits)
    ensures |Pins(hits)| <= |hits|
    ensures RebuildTable(p, hits, needed, copyFails).Rebuilt? <==> !copyFails && needed + |IdlePins(p, Pins(hits))| <= Available(p)
  {
    hide PoolInv, EvictUnused, IncrefAll, Available, Keeps, HitsValid, Pins, IdlePins, DecrefAll, Grow, Weave;
    PinsCount(hits);
    PinsCached(p, tokens, valid, hits);
    var pins := Pins(hits);
    var p1 := IncrefAll(p, pins);
    IncrefAllKeeps(p, rest, pins);
    KeepsSize(p, p1, rest);
    PinnedRoom(p, rest, p1, pins);
    EvictedRoom(p1, rest + multiset(pins), needed);
  }

  lemma KeepsSize(p: Pool, q: Pool, held: multiset<nat>)
    requires Keeps(p, q, held)
    ensures |q.ref| == |p.ref|
  {
  }

  lemma FreeIsAvailable(p: Pool)
    ensures |p.free| <= Available(p)
  {
  }

  lemma WovenUnshared(q: Pool, rest: multiset<nat>, pins: seq<nat>, added: seq<nat>, hits: seq<Option<nat>>)
    requires pins == Pins(hits) && |pins| + |added| == |hits| && forall b :: b in added ==> Unshared(q, rest + multiset(pins), b)
    ensures |Weave(hits, added)| == |hits|
    ensures forall i :: 0 <= i < |hits| ==>
      if hits[i].Some? then Weave(hits, added)[i] == hits[i].value else Unshared(q, rest, Weave(hits, added)[i])
  {
    hide IsCached, Weave;
    WeaveCounts(hits, added);
    forall i | 0 <= i < |hits|
      ensures if hits[i].Some? then Weave(hits, added)[i] == hits[i].value else Unshared(q, rest, Weave(hits, added)[i])
    {
      WeaveMeaning(hits, added, i);
      assert hits[i].None? ==> Weave(hits, added)[i] !in rest + multiset(pins);
    }
  }

  /** After a refusal each count is as before, except for evicted cache-only blocks, which are
      now free. */
  lemma RolledBackCounts(p: Pool, rest: multiset<nat>, q: Pool, b: nat)
    requires PoolInv(p, rest) && RolledBack(p, rest, q) && b < |p.ref|
    ensures q.ref[b] == p.ref[b] || (p.ref[b] == 1 && IsCached(p.cache, b) && q.ref[b] == 0 && b in q.free)
  {
    CachedFewer(p.cache, q.cache, b);
    if b in rest {
      if h: Hash :| Entry(h, b) in p.cache.lru {
        assert Entry(h, b) in q.cache.lru;
      }
    }
  }

  // ----- the restored request -----

  /** Every block that was not found on the device has host data that is right for it. */
  ghost predicate Supplied(net: Net, bs: nat, tokens: seq<Token>, valid: nat, hits: seq<Option<nat>>, sources: Sources) {
    && |sources| == |hits|
    && forall i :: 0 <= i < |hits| ==>
         (sources[i].Some? <==> hits[i].None?) && (sources[i].Some? ==> Right(net, tokens, bs, valid, i, sources[i].value))
  }

  lemma UnsharedOnce(q: Pool, rest: multiset<nat>, table: seq<nat>, i: nat)
    requires PoolInv(q, rest + multiset(table)) && i < |table| && Unshared(q, rest, table[i])
    ensures Once(table, i)
  {
    var b := table[i];
    assert (rest + multiset(table))[b] == rest[b] + multiset(table)[b] == 1;
    forall j | 0 <= j < |table| && j != i
      ensures table[j] != b
    {
      if table[j] == b {
        if i < j {
          SharedTwice(table, i, j);
        } else {
          SharedTwice(table, j, i);
        }
      }
    }
  }

  lemma AssembledTargets(p: Pool, rest: multiset<nat>, hits: seq<Option<nat>>, q: Pool, table: seq<nat>, sources: Sources, bs: nat)
    requires Assembled(p, rest, hits, q, table) && |sources| == |hits|
    requires forall i :: 0 <= i < |hits| && sources[i].Some? ==> hits[i].None? && |sources[i].value| == bs
    ensures SourcesFit(table, sources, bs)
    ensures forall b :: Target(table, sources, b) ==> Unshared(q, rest, b)
    ensures forall i :: 0 <= i < |table| ==> table[i] < |q.ref|
  {
    hide PoolInv, IsCached, Calm;
    forall i | 0 <= i < |table| && sources[i].Some?
      ensures Once(table, i)
    {
      UnsharedOnce(q, rest, table, i);
    }
    TableBelow(q, rest, table);
  }

  lemma TableBelow(q: Pool, rest: multiset<nat>, table: seq<nat>)
    requires PoolInv(q, rest + multiset(table))
    ensures forall i :: 0 <= i < |table| ==> table[i] < |q.ref|
  {
    forall i | 0 <= i < |table|
      ensures table[i] < |q.ref|
    {
      assert table[i] in multiset(table) && table[i] in rest + multiset(table);
    }
  }

  /** Hits keep their contents, the others get theirs. */
  lemma AssembledContents(net: Net, p: Pool, mem: Memory, rest: multiset<nat>, tokens: seq<Token>, valid: nat, hits: seq<Option<nat>>,
                          q: Pool, table: seq<nat>, sources: Sources)
    requires p.bs >= 1 && MemoryShape(mem, p.bs) && |mem| == |p.ref| == |q.ref| && CacheHolds(net, mem, p.bs, p.cache.lru)
    requires Assembled(p, rest, hits, q, table) && HitsValid(p, tokens, valid, hits) && Supplied(net, p.bs, tokens, valid, hits, sources)
    requires valid <= |table| * p.bs && valid <= |tokens|
    ensures var mem' := Imported(mem, table, sources, 0);
      && MemoryShape(mem', p.bs) && OnlyTargets(mem, mem', table, sources)
      && Holds(net, mem', table, tokens, valid)
      && (forall b :: Target(table, sources, b) ==> Unshared(q, rest, b))
  {
    hide PoolInv, IsCached, Calm, RefCells, Flat, ChainHash, BlockHolds, Unshared, Imported, Right;
    SuppliedFits(net, p.bs, tokens, valid, hits, sources);
    AssembledTargets(p, rest, hits, q, table, sources, p.bs);
    ImportedBlocks(mem, p.bs, table, sources, 0);
    var mem' := Imported(mem, table, sources, 0);
    forall i | 0 <= i < |table|
      ensures Right(net, tokens, p.bs, valid, i, mem'[table[i]])
    {
      if hits[i].Some? {
        var e := Entry(ChainHash(tokens, p.bs, i + 1), table[i]);
        assert e in p.cache.lru;
        HashedBlockIsRight(net, mem, p.bs, tokens, valid, i, e);
        HitNotTarget(table, sources, i);
      }
    }
    AssembledHolds(net, mem', p.bs, table, tokens, valid);
  }

  lemma SuppliedFits(net: Net, bs: nat, tokens: seq<Token>, valid: nat, hits: seq<Option<nat>>, sources: Sources)
    requires Supplied(net, bs, tokens, valid, hits, sources)
    ensures |sources| == |hits|
    ensures forall i :: 0 <= i < |hits| ==> (sources[i].Some? <==> hits[i].None?)
    ensures forall i :: 0 <= i < |hits| && sources[i].Some? ==> |sources[i].value| == bs
  {
    hide RefCells;
  }

  lemma HitNotTarget(table: seq<nat>, sources: Sources, i: nat)
    requires i < |table| == |sources| && sources[i].None?
    requires forall j :: 0 <= j < |table| && sources[j].Some? ==> Once(table, j)
    ensures !Target(table, sources, table[i])
  {
    forall j | 0 <= j < |table| && sources[j].Some?
      ensures table[j] != table[i]
    {
      assert Once(table, j);
    }
  }

  lemma AssembledReqInv(net: Net, p: Pool, rest: multiset<nat>, valid: nat, hits: seq<Option<nat>>, q: Pool, mem': Memory, r': Req)
    requires p.bs >= 1 && q.bs == p.bs && OneHash(p.cache.lru) && Assembled(p, rest, hits, q, r'.table)
    requires HitsValid(p, r'.tokens, valid, hits) && Holds(net, mem', r'.table, r'.tokens, valid)
    requires r'.computed == valid && r'.published <= valid / p.bs && r'.parent == ChainHash(r'.tokens, p.bs, r'.published)
    ensures ReqInv(net, q, mem', r') && PublishReady(q, r')
  {
    hide PoolInv, Calm, RefCells, Flat, Holds;
    forall e, i | e in q.cache.lru && 0 <= i < |r'.table| && r'.table[i] == e.block
      ensures e.hash == ChainHash(r'.tokens, q.bs, i + 1)
    {
      CalmEntries(p, q, rest);
      assert Entry(e.hash, e.block) in q.cache.lru;
      assert IsCached(q.cache, e.block) && hits[i].Some?;
      assert Entry(ChainHash(r'.tokens, p.bs, i + 1), e.block) in p.cache.lru;
    }
    forall i | valid / p.bs <= i < |r'.table|
      ensures r'.table[i] < |q.ref| && q.ref[r'.table[i]] == 1
    {
      PositionInTable(valid, i, p.bs);
      MulOrder(valid / p.bs, i, p.bs);
    }
  }

  lemma CalmEntries(p: Pool, q: Pool, held: multiset<nat>)
    requires Calm(p, q, held)
    ensures forall e :: e in q.cache.lru ==> e in p.cache.lru
    ensures Keeps(p, q, held)
  {
  }

  lemma ImportFrame(net: Net, p: Pool, mem: Memory, rest: multiset<nat>, q: Pool, mem': Memory, table: seq<nat>, sources: Sources)
    requires CacheHolds(net, mem, p.bs, p.cache.lru) && q.bs == p.bs && |mem| == |q.ref| && Calm(p, q, rest)
    requires OnlyTargets(mem, mem', table, sources) && forall b :: Target(table, sources, b) ==> Unshared(q, rest, b)
    ensures Frame(p, mem, q, mem', rest) && CacheHolds(net, mem', q.bs, q.cache.lru)
  {
    hide RefCells, HashTokens;
    forall e | e in q.cache.lru
      ensures BlockHolds(net, mem', q.bs, e)
    {
      assert Entry(e.hash, e.block) in q.cache.lru;
      assert IsCached(q.cache, e.block);
      assert BlockHolds(net, mem, p.bs, e);
    }
  }

  /** A rebuilt request is exactly as if it had computed the whole saved prefix itself, and
      nobody else notices. */
  lemma AssembledLocal(net: Net, p: Pool, mem: Memory, rest: multiset<nat>, r: Req, valid: nat, hits: seq<Option<nat>>,
                       q: Pool, sources: Sources, r': Req)
    requires Local(net, p, mem, rest, r) && Assembled(p, rest, hits, q, r'.table)
    requires p.bs >= 1 && HitsValid(p, r'.tokens, valid, hits) && Supplied(net, p.bs, r'.tokens, valid, hits, sources)
    requires valid <= |r'.table| * p.bs && valid <= |r'.tokens|
    requires r'.computed == valid && r'.published <= valid / p.bs && r'.parent == ChainHash(r'.tokens, p.bs, r'.published)
    ensures var mem' := Imported(mem, r'.table, sources, 0);
      Local(net, q, mem', rest, r') && Frame(p, mem, q, mem', rest) && q.bs == p.bs && PublishReady(q, r')
  {
    hide Assembled, HitsValid, Supplied, Imported, ReqInv, Frame, OnlyTargets, Unshared, CacheHolds, Target, PublishReady;
    AssembledPool(p, rest, hits, q, r'.table);
    PoolHashes(p, rest + multiset(r.table));
    AssembledContents(net, p, mem, rest, r'.tokens, valid, hits, q, r'.table, sources);
    var mem' := Imported(mem, r'.table, sources, 0);
    AssembledReqInv(net, p, rest, valid, hits, q, mem', r');
    ImportFrame(net, p, mem, rest, q, mem', r'.table, sources);
    FrameShape(p, mem, q, mem', rest);
  }

  lemma AssembledPool(p: Pool, rest: multiset<nat>, hits: seq<Option<nat>>, q: Pool, table: seq<nat>)
    requires Assembled(p, rest, hits, q, table)
    ensures PoolInv(q, rest + multiset(table)) && Calm(p, q, rest) && q.bs == p.bs && |q.ref| == |p.ref|
  {
    hide PoolInv;
  }

  lemma PoolHashes(p: Pool, held: multiset<nat>)
    requires PoolInv(p, held)
    ensures OneHash(p.cache.lru)
  {
  }

  /** A refusal leaves the request with nothing on the device, and everyone else untouched. */
  lemma RefusedLocal(net: Net, p: Pool, mem: Memory, rest: multiset<nat>, r: Req, q: Pool, r': Req)
    requires Local(net, p, mem, rest, r) && RolledBack(p, rest, q)
    requires r'.table == [] && r'.computed == 0 && r'.status != Running
    ensures Local(net, q, mem, rest, r') && Frame(p, mem, q, mem, rest)
  {
    hide PoolInv, ReqInv, BlockHolds, Spares;
    assert rest + multiset(r'.table) == rest;
    EmptyReqInv(net, q, mem, r');
  }
}

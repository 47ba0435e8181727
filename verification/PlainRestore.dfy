/** The default restore: share the cached chain from the start of the history, then fill the
    rest of the table from host memory. */
module PlainRestore {
  import opened Kv
  import opened BlockPool
  import opened Ownership
  import opened Restore

  /** `attach_cached_prefix_upto`, from an empty table. */
  function AttachUpto(p: Pool, tokens: seq<Token>, valid: nat): (Pool, nat, seq<nat>, Hash)
    requires p.bs >= 1
  {
    if p.caching then AttachLoop(p, tokens, 0, valid / p.bs, [], Root) else (p, 0, [], Root)
  }

  datatype Plain =
    | PlainRefused(pool: Pool, attached: nat, parent: Hash)
    | PlainRebuilt(pool: Pool, table: seq<nat>, attached: nat, parent: Hash)

  /** Shares first, then makes room for what is missing, then allocates it.  A refusal, or a
      copy that fails, releases everything it took. */
  function PlainTable(p: Pool, tokens: seq<Token>, valid: nat, blocks: nat, copyFails: bool): Plain
    requires p.bs >= 1
  {
    var (p1, n, table, parent) := AttachUpto(p, tokens, valid);
    var needed := (if blocks >= |table| then blocks - |table| else 0) + if valid % p.bs == 0 then 1 else 0;
    var p2 := EvictUnused(p1, needed - |p1.free|);
    if |p2.free| < needed then PlainRefused(DecrefAll(p2, table), n, parent)
    else
      var (p3, table') := Grow(p2, table, blocks);
      if copyFails then PlainRefused(DecrefAll(p3, table'), n, parent) else PlainRebuilt(p3, table', n, parent)
  }

  /** The shared prefix of the rebuilt table as device hits. */
  function PrefixHits(table: seq<nat>, n: nat): (hits: seq<Option<nat>>)
    ensures |hits| == |table|
  {
    seq(|table|, i requires 0 <= i < |table| => if i < n then Some(table[i]) else None)
  }

  /** Every shared block is cached under the history's own chain. */
  ghost predicate ChainOf(p: Pool, tokens: seq<Token>, table: seq<nat>) {
    forall i :: 0 <= i < |table| ==> Entry(ChainHash(tokens, p.bs, i + 1), table[i]) in p.cache.lru
  }

  ghost predicate SameEntries(p: Pool, q: Pool) {
    q.bs == p.bs && forall e :: e in q.cache.lru <==> e in p.cache.lru
  }

  ghost predicate Walked(p: Pool, rest: multiset<nat>, tokens: seq<Token>, full: nat, q: Pool, n: nat, table: seq<nat>, parent: Hash) {
    && PoolInv(q, rest + multiset(table)) && Keeps(p, q, rest) && SameEntries(p, q)
    && |table| == n <= full && parent == ChainHash(tokens, p.bs, n) && ChainOf(p, tokens, table)
  }

  /** One block shared on the walk. */
  lemma WalkStep(p: Pool, rest: multiset<nat>, tokens: seq<Token>, i: nat, full: nat, table: seq<nat>, e: Entry)
    requires i < full && Walked(p, rest, tokens, full, p, i, table, ChainHash(tokens, p.bs, i)) && e in p.cache.lru
    requires e.hash == Link(ChainHash(tokens, p.bs, i), BlockTokens(tokens, p.bs, i)) && e.block < |p.ref|
    ensures var q := Share(p, e);
      Walked(q, rest, tokens, full, q, i + 1, table + [e.block], e.hash) && Keeps(p, q, rest) && SameEntries(p, q)
  {
    hide PoolInv, Keeps, BlockTokens, Share, ChainHash;
    ShareKeeps(p, rest + multiset(table), e);
    var q := Share(p, e);
    assert rest + multiset(table + [e.block]) == rest + multiset(table) + multiset{e.block};
    KeepsSub(p, q, rest + multiset(table), rest);
    KeepsShape(p, q, rest);
    ChainGrows(p, tokens, table, e, i);
    KeepsRefl(q, rest);
    WalkFrom(p, q, tokens, table + [e.block]);
  }

  /** A walk continued from a pool that kept everything. */
  lemma WalkJoin(p: Pool, q: Pool, rest: multiset<nat>, tokens: seq<Token>, full: nat, q': Pool, n: nat, table: seq<nat>, parent: Hash)
    requires Walked(q, rest, tokens, full, q', n, table, parent) && Keeps(p, q, rest) && SameEntries(p, q)
    ensures Walked(p, rest, tokens, full, q', n, table, parent)
  {
    hide PoolInv, Keeps, ChainHash, ChainOf;
    KeepsTransitive(p, q, q', rest);
    WalkFrom(q, p, tokens, table);
  }

  lemma LookedUp(p: Pool, held: multiset<nat>, h: Hash)
    requires PoolInv(p, held)
    ensures Lookup(p.cache, h).Some? ==>
      var b := Lookup(p.cache, h).value; b < |p.ref| && p.ref[b] > 0 && Entry(h, b) in p.cache.lru
  {
    hide PoolInv, Lookup;
    CacheOf(p, held);
    LookupMeaning(p.cache, h);
    PoolInvMeaning(p, held);
  }

  /** The walk takes one reference to each block it shares and evicts nothing. */
  lemma {:induction false} WalkKeeps(p: Pool, rest: multiset<nat>, tokens: seq<Token>, i: nat, full: nat, table: seq<nat>, parent: Hash)
    requires i <= full && Walked(p, rest, tokens, full, p, i, table, parent)
    ensures var (q, n, table', parent') := AttachLoop(p, tokens, i, full, table, parent); Walked(p, rest, tokens, full, q, n, table', parent')
    decreases full - i
  {
    hide PoolInv, Keeps, Lookup, BlockTokens, Share, ChainHash, ChainOf, SameEntries;
    if i < full {
      var h := Link(parent, BlockTokens(tokens, p.bs, i));
      LookedUp(p, rest + multiset(table), h);
      if Lookup(p.cache, h).Some? {
        var e := Entry(h, Lookup(p.cache, h).value);
        var q := Share(p, e);
        WalkStep(p, rest, tokens, i, full, table, e);
        KeepsShape(p, q, rest);
        WalkKeeps(q, rest, tokens, i + 1, full, table + [e.block], h);
        var (q', n, table', parent') := AttachLoop(q, tokens, i + 1, full, table + [e.block], h);
        WalkJoin(p, q, rest, tokens, full, q', n, table', parent');
      }
    }
  }

  lemma CacheOf(p: Pool, held: multiset<nat>)
    requires PoolInv(p, held)
    ensures CacheValid(p.cache) && forall e :: e in p.cache.lru ==> e.block < |p.ref|
  {
  }

  lemma KeepsShape(p: Pool, q: Pool, held: multiset<nat>)
    requires Keeps(p, q, held)
    ensures q.bs == p.bs && q.caching == p.caching && |q.ref| == |p.ref|
  {
  }

  lemma ChainGrows(p: Pool, tokens: seq<Token>, table: seq<nat>, e: Entry, i: nat)
    requires ChainOf(p, tokens, table) && |table| == i && e in p.cache.lru
    requires e.hash == Link(ChainHash(tokens, p.bs, i), BlockTokens(tokens, p.bs, i))
    ensures ChainOf(p, tokens, table + [e.block]) && e.hash == ChainHash(tokens, p.bs, i + 1)
  {
    hide BlockTokens;
    assert Entry(e.hash, e.block) == e;
  }

  lemma WalkFrom(p: Pool, q: Pool, tokens: seq<Token>, table: seq<nat>)
    requires SameEntries(p, q) && ChainOf(p, tokens, table)
    ensures ChainOf(q, tokens, table)
  {
    hide ChainHash;
  }

  lemma AttachUptoKeeps(p: Pool, rest: multiset<nat>, tokens: seq<Token>, valid: nat)
    requires PoolInv(p, rest) && p.bs >= 1
    ensures var (q, n, table, parent) := AttachUpto(p, tokens, valid); Walked(p, rest, tokens, valid / p.bs, q, n, table, parent) && Calm(p, q, rest)
  {
    hide PoolInv, Keeps, AttachLoop, ChainHash;
    assert rest + multiset([]) == rest;
    KeepsRefl(p, rest);
    assert ChainHash(tokens, p.bs, 0) == Root by { ChainRoot(tokens, p.bs); }
    PositionInTable(valid, 0, p.bs);
    if p.caching {
      WalkKeeps(p, rest, tokens, 0, valid / p.bs, [], Root);
    }
  }

  lemma ChainRoot(tokens: seq<Token>, bs: nat)
    ensures ChainHash(tokens, bs, 0) == Root
  {
  }

  /** Growing a table appends what growing an empty one would give. */
  lemma {:induction false} GrowAppends(p: Pool, table: seq<nat>, added: seq<nat>, needed: nat)
    ensures Grow(p, table + added, |table| + needed) == (Grow(p, added, needed).0, table + Grow(p, added, needed).1)
    decreases needed - |added|
  {
    hide AllocBlock;
    if |added| < needed && AllocBlock(p).Some? {
      var (q, b) := AllocBlock(p).value;
      assert (table + added) + [b] == table + (added + [b]);
      GrowAppends(q, table, added + [b], needed);
    }
  }

  /** The whole table, its shared prefix being the history's own chain. */
  ghost predicate PlainDone(p: Pool, rest: multiset<nat>, tokens: seq<Token>, valid: nat, blocks: nat, plain: Plain)
    requires p.bs >= 1
  {
    && plain.PlainRebuilt? && |plain.table| == blocks
    && plain.attached <= valid / p.bs && plain.parent == ChainHash(tokens, p.bs, plain.attached)
    && Assembled(p, rest, PrefixHits(plain.table, plain.attached), plain.pool, plain.table)
    && HitsValid(p, tokens, valid, PrefixHits(plain.table, plain.attached))
  }

  lemma PlainTableKeeps(p: Pool, rest: multiset<nat>, tokens: seq<Token>, valid: nat, blocks: nat, copyFails: bool)
    requires PoolInv(p, rest) && p.bs >= 1 && valid / p.bs <= blocks
    ensures var plain := PlainTable(p, tokens, valid, blocks, copyFails);
      if plain.PlainRefused? then RolledBack(p, rest, plain.pool)
      else PlainDone(p, rest, tokens, valid, blocks, plain)
  {
    hide PoolInv, AttachUpto, EvictUnused, Grow, DecrefAll, Available, Calm, Keeps, RolledBack, Assembled, HitsValid, ChainHash, ChainOf, SameEntries;
    AttachUptoKeeps(p, rest, tokens, valid);
    var (p1, n, table, parent) := AttachUpto(p, tokens, valid);
    var needed := blocks - |table| + if valid % p.bs == 0 then 1 else 0;
    EvictCalm(p1, rest + multiset(table), needed - |p1.free|);
    var p2 := EvictUnused(p1, needed - |p1.free|);
    CalmTrans(p, p1, p2, rest, multiset(table));
    if |p2.free| < needed {
      ReleaseCalm(p, rest, p2, table);
    } else {
      FreeIsAvailable(p2);
      GrowCalm(p2, rest + multiset(table), blocks - |table|);
      assert table + [] == table;
      GrowAppends(p2, table, [], blocks - |table|);
      var (p3, added) := Grow(p2, [], blocks - |table|);
      CalmTrans(p, p2, p3, rest, multiset(table));
      assert rest + multiset(table + added) == rest + multiset(table) + multiset(added);
      if copyFails {
        ReleaseCalm(p, rest, p3, table + added);
      } else {
        PlainAssembled(p, rest, tokens, valid, p3, table, added);
      }
    }
  }

  lemma ChainCached(p: Pool, tokens: seq<Token>, table: seq<nat>)
    requires ChainOf(p, tokens, table)
    ensures forall b :: b in table ==> IsCached(p.cache, b)
  {
    hide ChainHash;
    forall b | b in table
      ensures IsCached(p.cache, b)
    {
      var i :| 0 <= i < |table| && table[i] == b;
      assert Entry(ChainHash(tokens, p.bs, i + 1), b) in p.cache.lru;
    }
  }

  /** What the rebuilt table still lacks after the walk, and one block to go on with. */
  function Shortfall(p: Pool, tokens: seq<Token>, valid: nat, blocks: nat): int
    requires p.bs >= 1
  {
    blocks - |AttachUpto(p, tokens, valid).2| + if valid % p.bs == 0 then 1 else 0
  }

  /** The plain restore is refused exactly when a copy fails or the blocks run out. */
  lemma PlainExact(p: Pool, rest: multiset<nat>, tokens: seq<Token>, valid: nat, blocks: nat, copyFails: bool)
    requires PoolInv(p, rest) && p.bs >= 1 && valid / p.bs <= blocks
    ensures PlainTable(p, tokens, valid, blocks, copyFails).PlainRebuilt? <==>
      !copyFails && Shortfall(p, tokens, valid, blocks) + |IdlePins(p, AttachUpto(p, tokens, valid).2)| <= Available(p)
  {
    hide PoolInv, AttachUpto, EvictUnused, Available, Calm, Keeps, ChainHash, ChainOf, SameEntries, IdlePins, DecrefAll, Grow;
    AttachUptoKeeps(p, rest, tokens, valid);
    var (p1, n, table, parent) := AttachUpto(p, tokens, valid);
    KeepsShape(p, p1, rest);
    ChainCached(p, tokens, table);
    PinnedRoom(p, rest, p1, table);
    EvictedRoom(p1, rest + multiset(table), Shortfall(p, tokens, valid, blocks));
  }

  lemma PlainAssembled(p: Pool, rest: multiset<nat>, tokens: seq<Token>, valid: nat, q: Pool, table: seq<nat>, added: seq<nat>)
    requires p.bs >= 1 && PoolInv(q, rest + multiset(table + added)) && Calm(p, q, rest) && |table| <= valid / p.bs
    requires ChainOf(p, tokens, table) && forall b :: b in added ==> Unshared(q, rest + multiset(table), b)
    ensures var all := table + added; var hits := PrefixHits(all, |table|);
      Assembled(p, rest, hits, q, all) && HitsValid(p, tokens, valid, hits)
  {
    hide PoolInv, Calm, ChainHash, IsCached;
    var all := table + added;
    var hits := PrefixHits(all, |table|);
    forall i | 0 <= i < |all|
      ensures hits[i].Some? ==> all[i] == hits[i].value && i * p.bs + p.bs <= valid
      ensures hits[i].None? ==> Unshared(q, rest, all[i])
    {
      if i < |table| {
        FullBlock(valid, p.bs, i);
      } else {
        assert all[i] in added;
        assert all[i] !in rest + multiset(table);
      }
    }
  }

  lemma FullBlock(valid: nat, bs: nat, i: nat)
    requires bs >= 1 && i < valid / bs
    ensures i * bs + bs <= valid
  {
    PositionInTable(valid, i + 1, bs);
    MulStep(i + 1, bs);
  }
}

/** The physical block pool: a free list, reference counts and the content-addressed prefix
    cache, as values with the operations of the block manager as functions on them.

    `rest` always stands for the references held by every other live request, so that one
    request's step can be checked without looking at the others. */
module BlockPool {
  import opened Kv

  // ----- chained block hashes -----

  /** `block_hash` taken as injective on (parent, tokens). */
  datatype Hash = Root | Link(parent: Hash, tokens: seq<Token>)

  function BlockTokens(tokens: seq<Token>, bs: nat, i: nat): seq<Token> {
    if i * bs + bs <= |tokens| then tokens[i * bs..i * bs + bs] else []
  }

  /** The hash chain over the first `n` full blocks. */
  function ChainHash(tokens: seq<Token>, bs: nat, n: nat): Hash {
    if n == 0 then Root
    else Link(ChainHash(tokens, bs, n - 1), BlockTokens(tokens, bs, n - 1))
  }

  /** The whole prefix that a hash stands for. */
  function HashTokens(h: Hash): seq<Token> {
    match h
    case Root => []
    case Link(parent, tokens) => HashTokens(parent) + tokens
  }

  lemma {:induction false} ChainHashTokens(tokens: seq<Token>, bs: nat, n: nat)
    requires n * bs <= |tokens|
    ensures HashTokens(ChainHash(tokens, bs, n)) == tokens[..n * bs]
  {
    if n > 0 {
      assert n * bs == (n - 1) * bs + bs;
      ChainHashTokens(tokens, bs, n - 1);
    }
  }

  /** Sharing is by content: equal chain hashes mean equal token prefixes. */
  lemma ChainHashInjective(tokens: seq<Token>, tokens': seq<Token>, bs: nat, n: nat)
    requires n * bs <= |tokens| && n * bs <= |tokens'|
    ensures ChainHash(tokens, bs, n) == ChainHash(tokens', bs, n) <==> tokens[..n * bs] == tokens'[..n * bs]
  {
    ChainHashTokens(tokens, bs, n);
    ChainHashTokens(tokens', bs, n);
    if tokens[..n * bs] == tokens'[..n * bs] {
      ChainHashPrefix(tokens, tokens', bs, n);
    }
  }

  /** The chain reads only the prefix it covers. */
  lemma {:induction false} ChainHashPrefix(tokens: seq<Token>, tokens': seq<Token>, bs: nat, n: nat)
    requires n * bs <= |tokens| && n * bs <= |tokens'| && tokens[..n * bs] == tokens'[..n * bs]
    ensures ChainHash(tokens, bs, n) == ChainHash(tokens', bs, n)
  {
    if n > 0 {
      var m := (n - 1) * bs;
      assert n * bs == m + bs;
      assert tokens[..m] == tokens[..n * bs][..m] && tokens'[..m] == tokens'[..n * bs][..m];
      ChainHashPrefix(tokens, tokens', bs, n - 1);
      assert tokens[m..m + bs] == tokens[..n * bs][m..] && tokens'[m..m + bs] == tokens'[..n * bs][m..];
    }
  }

  // ----- sequences -----

  function Without<T(==)>(s: seq<T>, x: T): seq<T> {
    if s == [] then []
    else if s[0] == x then s[1..]
    else [s[0]] + Without(s[1..], x)
  }

  function RemoveAt<T>(s: seq<T>, i: nat): (rest: seq<T>)
    requires i < |s|
    ensures |rest| == |s| - 1
  {
    s[..i] + s[i + 1..]
  }

  ghost predicate Distinct<T>(s: seq<T>) {
    forall i, j :: 0 <= i < j < |s| ==> s[i] != s[j]
  }

  lemma {:induction false} WithoutElements<T>(s: seq<T>, x: T)
    requires Distinct(s)
    ensures Distinct(Without(s, x))
    ensures forall y :: y in Without(s, x) <==> y in s && y != x
    ensures |Without(s, x)| == if x in s then |s| - 1 else |s|
  {
    if s != [] {
      WithoutElements(s[1..], x);
      var rest := Without(s[1..], x);
      assert s == [s[0]] + s[1..];
      if s[0] != x {
        assert forall y :: y in [s[0]] + rest <==> y == s[0] || y in rest;
        assert s[0] !in s[1..];
      }
    }
  }

  // ----- the prefix cache -----

  datatype Option<T> = None | Some(value: T)

  datatype Entry = Entry(hash: Hash, block: nat)

  /** `index` lists the physical copies of a prefix in insertion order; `lru` orders every
      (hash, block) pair from least to most recently used. */
  datatype Cache = Cache(index: map<Hash, seq<nat>>, lru: seq<Entry>)

  function Lookup(c: Cache, h: Hash): Option<nat> {
    if h in c.index && c.index[h] != [] then Some(c.index[h][0]) else None
  }

  function Touch(c: Cache, e: Entry): Cache {
    if e in c.lru then c.(lru := Without(c.lru, e) + [e]) else c
  }

  /** Registers a copy; an already registered one is only touched. */
  function Insert(c: Cache, e: Entry): (Cache, bool) {
    var blocks := if e.hash in c.index then c.index[e.hash] else [];
    if e.block in blocks then (Touch(c, e), false)
    else (Cache(c.index[e.hash := blocks + [e.block]], c.lru + [e]), true)
  }

  /** Removes this copy only; other copies keep the prefix discoverable. */
  function Drop(c: Cache, e: Entry): Cache {
    if e.hash in c.index && e.block in c.index[e.hash] then
      var blocks := Without(c.index[e.hash], e.block);
      Cache(if blocks == [] then c.index - {e.hash} else c.index[e.hash := blocks], Without(c.lru, e))
    else c
  }

  /** The index and the recency list describe the same copies, each block at most once. */
  ghost predicate CacheValid(c: Cache) {
    && (forall h, b :: h in c.index && b in c.index[h] <==> Entry(h, b) in c.lru)
    && (forall h :: h in c.index ==> c.index[h] != [] && Distinct(c.index[h]))
    && Distinct(c.lru)
    && OneHash(c.lru)
  }

  /** A physical block is cached under one hash only. */
  ghost predicate OneHash(lru: seq<Entry>) {
    forall e, e' :: e in lru && e' in lru && e.block == e'.block ==> e == e'
  }

  ghost predicate IsCached(c: Cache, b: nat) {
    exists h: Hash :: Entry(h, b) in c.lru
  }

  lemma LookupMeaning(c: Cache, h: Hash)
    requires CacheValid(c)
    ensures Lookup(c, h).Some? ==> Entry(h, Lookup(c, h).value) in c.lru
    ensures Lookup(c, h).None? ==> forall b :: Entry(h, b) !in c.lru
  {
    if Lookup(c, h).Some? {
      assert c.index[h][0] in c.index[h];
    }
  }

  lemma TouchKeeps(c: Cache, e: Entry)
    requires CacheValid(c)
    ensures CacheValid(Touch(c, e))
    ensures forall x :: x in Touch(c, e).lru <==> x in c.lru
    ensures |Touch(c, e).lru| == |c.lru|
  {
    if e in c.lru {
      WithoutElements(c.lru, e);
    }
  }

  lemma InsertNew(c: Cache, e: Entry)
    requires CacheValid(c) && !IsCached(c, e.block)
    ensures Insert(c, e).1 && CacheValid(Insert(c, e).0)
    ensures Insert(c, e).0.lru == c.lru + [e]
  {
    var c' := Insert(c, e).0;
    assert e !in c.lru;
    assert forall x :: x in c.lru + [e] <==> x in c.lru || x == e;
    forall x, y | x in c'.lru && y in c'.lru && x.block == y.block
      ensures x == y
    {
      assert x in c.lru ==> Entry(x.hash, x.block) in c.lru;
      assert y in c.lru ==> Entry(y.hash, y.block) in c.lru;
    }
    if e.hash in c.index {
      assert forall b :: b in c.index[e.hash] + [e.block] <==> b in c.index[e.hash] || b == e.block;
    }
  }

  lemma InsertPresent(c: Cache, e: Entry)
    requires CacheValid(c) && e in c.lru
    ensures !Insert(c, e).1 && Insert(c, e).0 == Touch(c, e)
  {
    assert Entry(e.hash, e.block) in c.lru;
  }

  lemma DropPresent(c: Cache, e: Entry)
    requires CacheValid(c) && e in c.lru
    ensures CacheValid(Drop(c, e))
    ensures Drop(c, e).lru == Without(c.lru, e)
    ensures forall x :: x in Drop(c, e).lru <==> x in c.lru && x != e
    ensures !IsCached(Drop(c, e), e.block)
  {
    assert Entry(e.hash, e.block) in c.lru;
    WithoutElements(c.lru, e);
    WithoutElements(c.index[e.hash], e.block);
    var c' := Drop(c, e);
    forall h, b
      ensures h in c'.index && b in c'.index[h] <==> Entry(h, b) in c'.lru
    {
      assert Entry(h, b) in c'.lru <==> Entry(h, b) in c.lru && Entry(h, b) != e;
    }
  }

  // ----- the pool -----

  datatype Pool = Pool(bs: nat, caching: bool, free: seq<nat>, ref: seq<int>, cache: Cache, epoch: nat)

  // The engine raises an index error for a block id outside the pool and a refcount underflow
  // for a count below zero.  The functions below are total, and `PoolInv` is what shows that
  // neither ever happens.

  function Incref(p: Pool, b: nat): Pool {
    if b < |p.ref| then p.(ref := p.ref[b := p.ref[b] + 1]) else p
  }

  function Decref(p: Pool, b: nat): Pool {
    if b < |p.ref| then
      var n := p.ref[b] - 1;
      p.(ref := p.ref[b := n], free := if n == 0 then p.free + [b] else p.free)
    else p
  }

  /** What holds of the pool when `held` counts the references of all block tables. */
  ghost predicate PoolInv(p: Pool, held: multiset<nat>) {
    && p.bs >= 1
    && CacheValid(p.cache)
    && (!p.caching ==> p.cache.lru == [])
    && (forall b :: b in held ==> b < |p.ref|)
    && (forall e :: e in p.cache.lru ==> e.block < |p.ref|)
    && (forall b :: 0 <= b < |p.ref| ==> p.ref[b] == held[b] + if IsCached(p.cache, b) then 1 else 0)
    && (forall b :: b in held && held[b] >= 2 ==> IsCached(p.cache, b))
    && FreeExact(p.free, p.ref)
  }

  /** The free list holds every unreferenced block once. */
  ghost predicate FreeExact(free: seq<nat>, ref: seq<int>) {
    && Distinct(free)
    && (forall b: nat :: b in free <==> b < |ref| && ref[b] == 0)
  }

  lemma FreeAppends(free: seq<nat>, ref: seq<int>, b: nat)
    requires FreeExact(free, ref) && b < |ref| && ref[b] != 0
    ensures FreeExact(free + [b], ref[b := 0])
  {
    assert forall x: nat :: x in free + [b] <==> x in free || x == b;
  }

  lemma FreePops(free: seq<nat>, ref: seq<int>)
    requires FreeExact(free, ref) && free != []
    ensures free[0] in free && FreeExact(free[1..], ref[free[0] := 1])
  {
    assert forall x: nat :: x in free <==> x == free[0] || x in free[1..];
    assert free[0] !in free[1..];
  }

  /** What a pool operation leaves alone: the shape, the exclusiveness of every held block,
      and no held block is newly published. */
  ghost predicate Keeps(p: Pool, p': Pool, held: multiset<nat>) {
    && p'.bs == p.bs && p'.caching == p.caching && p'.epoch == p.epoch && |p'.ref| == |p.ref|
    && (forall b :: b in held && b < |p.ref| && p.ref[b] == 1 ==> p'.ref[b] == 1)
    && (forall e :: e in p'.cache.lru && e.block in held ==> e in p.cache.lru)
  }

  /** No count ever underflows, nothing cached is unreferenced, and the free list is exactly
      the unreferenced blocks. */
  lemma PoolInvMeaning(p: Pool, held: multiset<nat>)
    requires PoolInv(p, held)
    ensures forall b :: 0 <= b < |p.ref| ==> p.ref[b] >= 0
    ensures forall e :: e in p.cache.lru ==> p.ref[e.block] >= 1 && e.block !in p.free
    ensures forall b :: b in held ==> p.ref[b] >= 1 && b !in p.free
  {
    forall e | e in p.cache.lru
      ensures p.ref[e.block] >= 1
    {
      assert Entry(e.hash, e.block) in p.cache.lru;
    }
  }

  // ----- eviction -----

  predicate IsIdle(ref: seq<int>, e: Entry) {
    e.block < |ref| && ref[e.block] == 1
  }

  /** Least recently used copies that only the cache refers to, at most `n`. */
  function Victims(lru: seq<Entry>, ref: seq<int>, n: int): seq<Entry> {
    if lru == [] || n <= 0 then []
    else if IsIdle(ref, lru[0]) then [lru[0]] + Victims(lru[1..], ref, n - 1)
    else Victims(lru[1..], ref, n)
  }

  function DropEntries(p: Pool, victims: seq<Entry>): Pool
    decreases |victims|
  {
    if victims == [] then p
    else DropEntries(Decref(p.(cache := Drop(p.cache, victims[0])), victims[0].block), victims[1..])
  }

  function EvictUnused(p: Pool, n: int): Pool {
    if !p.caching || n <= 0 then p
    else DropEntries(p, Victims(p.cache.lru, p.ref, n))
  }

  /** How many cached copies nothing but the cache refers to. */
  function IdleCount(lru: seq<Entry>, ref: seq<int>): nat {
    if lru == [] then 0
    else (if IsIdle(ref, lru[0]) then 1 else 0) + IdleCount(lru[1..], ref)
  }

  lemma {:induction false} VictimsAreIdle(lru: seq<Entry>, ref: seq<int>, n: int)
    ensures forall e :: e in Victims(lru, ref, n) ==> e in lru && IsIdle(ref, e)
    ensures |Victims(lru, ref, n)| == Min(if n <= 0 then 0 else n, IdleCount(lru, ref))
  {
    if lru != [] && n > 0 {
      assert lru[0] in lru && forall e :: e in lru[1..] ==> e in lru;
      VictimsAreIdle(lru[1..], ref, if IsIdle(ref, lru[0]) then n - 1 else n);
    }
  }

  lemma {:induction false} VictimsDistinct(lru: seq<Entry>, ref: seq<int>, n: int)
    requires Distinct(lru)
    ensures Distinct(Victims(lru, ref, n))
  {
    if lru != [] && n > 0 {
      var n' := if IsIdle(ref, lru[0]) then n - 1 else n;
      assert lru[0] in lru && forall e :: e in lru[1..] ==> e in lru;
      VictimsDistinct(lru[1..], ref, n');
      VictimsAreIdle(lru[1..], ref, n');
      assert lru[0] !in lru[1..];
    }
  }

  /** Dropping one idle copy frees its block and nothing else. */
  lemma DropIdle(p: Pool, held: multiset<nat>, e: Entry)
    requires PoolInv(p, held) && e in p.cache.lru && p.ref[e.block] == 1
    ensures var p' := Decref(p.(cache := Drop(p.cache, e)), e.block);
      && PoolInv(p', held) && Keeps(p, p', held)
      && p'.free == p.free + [e.block]
      && p'.ref == p.ref[e.block := 0]
      && p'.cache.lru == Without(p.cache.lru, e)
      && forall x :: x in p'.cache.lru <==> x in p.cache.lru && x != e
  {
    DropPresent(p.cache, e);
    var c' := Drop(p.cache, e);
    assert Entry(e.hash, e.block) in p.cache.lru;
    assert IsCached(p.cache, e.block) && held[e.block] == 0;
    DropUncaches(p.cache, e);
    var p' := Decref(p.(cache := c'), e.block);
    FreeAppends(p.free, p.ref, e.block);
  }

  lemma DropUncaches(c: Cache, e: Entry)
    requires CacheValid(c) && e in c.lru
    ensures forall b :: IsCached(Drop(c, e), b) <==> IsCached(c, b) && b != e.block
  {
    DropPresent(c, e);
    forall b | b != e.block && IsCached(c, b)
      ensures IsCached(Drop(c, e), b)
    {
      var h: Hash :| Entry(h, b) in c.lru;
      assert Entry(h, b) in Drop(c, e).lru;
    }
    forall b | IsCached(Drop(c, e), b)
      ensures IsCached(c, b) && b != e.block
    {
      var h: Hash :| Entry(h, b) in Drop(c, e).lru;
      assert Entry(h, b) in c.lru;
    }
  }

  lemma {:induction false} IdleCountWithout(lru: seq<Entry>, ref: seq<int>, e: Entry)
    requires e in lru && IsIdle(ref, e) && Distinct(lru) && OneHash(lru)
    ensures forall x :: x in Without(lru, e) ==> x in lru
    ensures IdleCount(Without(lru, e), ref[e.block := 0]) == IdleCount(lru, ref) - 1
  {
    WithoutElements(lru, e);
    if lru[0] == e {
      assert lru[0] !in lru[1..];
      assert forall x :: x in lru[1..] ==> x in lru && x.block != e.block;
      IdleCountSame(lru[1..], ref, ref[e.block := 0]);
    } else {
      assert e in lru[1..] && lru[0] in lru && forall x :: x in lru[1..] ==> x in lru;
      IdleCountWithout(lru[1..], ref, e);
      assert lru[0].block != e.block;
      assert Without(lru, e) == [lru[0]] + Without(lru[1..], e);
    }
  }

  lemma {:induction false} IdleCountSame(lru: seq<Entry>, ref: seq<int>, ref': seq<int>)
    requires forall x :: x in lru ==> (IsIdle(ref, x) <==> IsIdle(ref', x))
    ensures IdleCount(lru, ref) == IdleCount(lru, ref')
  {
    if lru != [] {
      assert lru[0] in lru && forall x :: x in lru[1..] ==> x in lru;
      IdleCountSame(lru[1..], ref, ref');
    }
  }

  lemma DropIdleCounts(p: Pool, held: multiset<nat>, e: Entry)
    requires PoolInv(p, held) && e in p.cache.lru && IsIdle(p.ref, e)
    ensures var p' := Decref(p.(cache := Drop(p.cache, e)), e.block);
      && PoolInv(p', held) && Keeps(p, p', held)
      && |p'.free| == |p.free| + 1
      && IdleCount(p'.cache.lru, p'.ref) == IdleCount(p.cache.lru, p.ref) - 1
      && (forall x :: x in p'.cache.lru <==> x in p.cache.lru && x != e)
      && (forall x :: x in p'.cache.lru && IsIdle(p.ref, x) ==> IsIdle(p'.ref, x))
  {
    DropIdle(p, held, e);
    IdleCountWithout(p.cache.lru, p.ref, e);
  }

  lemma {:induction false} DropEntriesKeeps(p: Pool, held: multiset<nat>, victims: seq<Entry>)
    requires PoolInv(p, held) && Distinct(victims)
    requires forall e :: e in victims ==> e in p.cache.lru && IsIdle(p.ref, e)
    ensures var p' := DropEntries(p, victims);
      && PoolInv(p', held) && Keeps(p, p', held)
      && |p'.free| == |p.free| + |victims|
      && IdleCount(p'.cache.lru, p'.ref) == IdleCount(p.cache.lru, p.ref) - |victims|
      && (forall x :: x in p'.cache.lru ==> x in p.cache.lru)
    decreases |victims|
  {
    hide PoolInv, IdleCount, IsIdle, Drop, Decref;
    if victims != [] {
      var e := victims[0];
      assert e in victims && forall x :: x in victims[1..] ==> x in victims && x != e;
      DropIdleCounts(p, held, e);
      var p1 := Decref(p.(cache := Drop(p.cache, e)), e.block);
      DropEntriesKeeps(p1, held, victims[1..]);
      KeepsTransitive(p, p1, DropEntries(p, victims), held);
    }
  }

  /** Eviction frees exactly as many blocks as asked for, or every idle copy if fewer, and
      touches nothing that a request refers to. */
  lemma EvictUnusedKeeps(p: Pool, held: multiset<nat>, n: int)
    requires PoolInv(p, held)
    ensures var p' := EvictUnused(p, n);
      && PoolInv(p', held) && Keeps(p, p', held)
      && |p'.free| == |p.free| + Min(if n <= 0 then 0 else n, IdleCount(p.cache.lru, p.ref))
      && IdleCount(p'.cache.lru, p'.ref) == IdleCount(p.cache.lru, p.ref) - (|p'.free| - |p.free|)
      && (forall x :: x in p'.cache.lru ==> x in p.cache.lru)
  {
    if p.caching && n > 0 {
      VictimsAreIdle(p.cache.lru, p.ref, n);
      VictimsDistinct(p.cache.lru, p.ref, n);
      DropEntriesKeeps(p, held, Victims(p.cache.lru, p.ref, n));
    }
  }

  // ----- allocation -----

  /** Takes the oldest free block, evicting one idle copy first if there is none.  `None` is
      the empty-deque error. */
  function AllocBlock(p: Pool): Option<(Pool, nat)> {
    var q := if p.free == [] then EvictUnused(p, 1) else p;
    if q.free == [] || q.free[0] >= |q.ref| then None
    else Some((q.(free := q.free[1..], ref := q.ref[q.free[0] := 1]), q.free[0]))
  }

  /** The blocks that allocation can still hand out. */
  function Available(p: Pool): nat {
    |p.free| + IdleCount(p.cache.lru, p.ref)
  }

  lemma TakeFree(p: Pool, held: multiset<nat>)
    requires PoolInv(p, held) && p.free != []
    ensures p.free[0] in p.free && p.free[0] < |p.ref|
    ensures var b := p.free[0]; var p' := p.(free := p.free[1..], ref := p.ref[b := 1]);
      && held[b] == 0 && !IsCached(p.cache, b)
      && PoolInv(p', held + multiset{b}) && Keeps(p, p', held)
      && Available(p') == Available(p) - 1
  {
    var b := p.free[0];
    assert b in p.free;
    var p' := p.(free := p.free[1..], ref := p.ref[b := 1]);
    FreePops(p.free, p.ref);
    PoolInvMeaning(p, held);
    assert p'.ref[b] == (held + multiset{b})[b];
    IdleCountSame(p.cache.lru, p.ref, p'.ref);
  }

  lemma AllocBlockKeeps(p: Pool, held: multiset<nat>)
    requires PoolInv(p, held)
    ensures AllocBlock(p).Some? <==> Available(p) > 0
    ensures AllocBlock(p).Some? ==>
      var (p', b) := AllocBlock(p).value;
      && b < |p.ref| && held[b] == 0 && p'.ref[b] == 1 && !IsCached(p'.cache, b)
      && PoolInv(p', held + multiset{b}) && Keeps(p, p', held)
      && Available(p') == Available(p) - 1
      && (forall x :: x in p'.cache.lru ==> x in p.cache.lru)
  {
    var q := if p.free == [] then EvictUnused(p, 1) else p;
    if p.free == [] {
      EvictUnusedKeeps(p, held, 1);
      IdleNeedsCaching(p, held);
    }
    if q.free != [] {
      TakeFree(q, held);
    }
  }

  lemma IdleNeedsCaching(p: Pool, held: multiset<nat>)
    requires PoolInv(p, held)
    ensures !p.caching ==> IdleCount(p.cache.lru, p.ref) == 0
  {
  }

  // ----- sharing and release -----

  /** One more reference to a cached copy. */
  function Share(p: Pool, e: Entry): Pool {
    Incref(p.(cache := Touch(p.cache, e)), e.block)
  }

  lemma CachedSame(c: Cache, c': Cache)
    requires forall x :: x in c'.lru <==> x in c.lru
    ensures forall b :: IsCached(c', b) <==> IsCached(c, b)
  {
    forall b
      ensures IsCached(c', b) <==> IsCached(c, b)
    {
      if h: Hash :| Entry(h, b) in c.lru {
        assert Entry(h, b) in c'.lru;
      }
      if h: Hash :| Entry(h, b) in c'.lru {
        assert Entry(h, b) in c.lru;
      }
    }
  }

  lemma ShareKeeps(p: Pool, held: multiset<nat>, e: Entry)
    requires PoolInv(p, held) && e in p.cache.lru
    ensures e.block < |p.ref|
    ensures PoolInv(Share(p, e), held + multiset{e.block}) && Keeps(p, Share(p, e), held)
    ensures forall x :: x in Share(p, e).cache.lru <==> x in p.cache.lru
    ensures Share(p, e).ref[e.block] >= 2
  {
    TouchKeeps(p.cache, e);
    CachedSame(p.cache, Touch(p.cache, e));
    assert Entry(e.hash, e.block) in p.cache.lru;
    var p' := Share(p, e);
    assert IsCached(p.cache, e.block);
    assert p'.ref[e.block] == (held + multiset{e.block})[e.block] + 1;
  }

  lemma DecrefKeeps(p: Pool, rest: multiset<nat>, b: nat)
    requires PoolInv(p, rest + multiset{b})
    ensures b < |p.ref| && p.ref[b] >= 1
    ensures PoolInv(Decref(p, b), rest) && Keeps(p, Decref(p, b), rest)
    ensures Decref(p, b).cache == p.cache
  {
    assert b in rest + multiset{b};
    assert (rest + multiset{b})[b] == rest[b] + 1;
    forall x | x in rest
      ensures x in rest + multiset{b}
    {
    }
    assert forall x :: x != b ==> (rest + multiset{b})[x] == rest[x];
    if p.ref[b] == 1 {
      FreeAppends(p.free, p.ref, b);
    }
  }

  /** `deallocate`: every entry of the table in order. */
  function DecrefAll(p: Pool, table: seq<nat>): Pool
    decreases |table|
  {
    if table == [] then p else DecrefAll(Decref(p, table[0]), table[1..])
  }

  lemma {:induction false} DecrefAllKeeps(p: Pool, rest: multiset<nat>, table: seq<nat>)
    requires PoolInv(p, rest + multiset(table))
    ensures PoolInv(DecrefAll(p, table), rest) && Keeps(p, DecrefAll(p, table), rest)
    ensures DecrefAll(p, table).cache == p.cache
    decreases |table|
  {
    if table == [] {
      assert rest + multiset(table) == rest;
    } else {
      hide PoolInv, Decref, Keeps;
      assert table == [table[0]] + table[1..];
      assert rest + multiset(table) == (rest + multiset(table[1..])) + multiset{table[0]};
      DecrefKeeps(p, rest + multiset(table[1..]), table[0]);
      DecrefAllKeeps(Decref(p, table[0]), rest, table[1..]);
      KeepsSub(p, Decref(p, table[0]), rest + multiset(table[1..]), rest);
      KeepsTransitive(p, Decref(p, table[0]), DecrefAll(p, table), rest);
    }
  }

  /** `truncate_kv`: drops entries from the end until `needed` remain. */
  function TruncateTable(p: Pool, table: seq<nat>, needed: nat): (Pool, seq<nat>)
    decreases |table|
  {
    if |table| <= needed then (p, table)
    else TruncateTable(Decref(p, table[|table| - 1]), table[..|table| - 1], needed)
  }

  lemma PrefixHeld(rest: multiset<nat>, table: seq<nat>, n: nat)
    requires n <= |table|
    ensures rest + multiset(table[..n]) <= rest + multiset(table)
  {
    assert table == table[..n] + table[n..];
  }

  lemma LastHeld(rest: multiset<nat>, table: seq<nat>)
    requires table != []
    ensures rest + multiset(table)
         == (rest + multiset(table[..|table| - 1])) + multiset{table[|table| - 1]}
  {
    assert table == table[..|table| - 1] + [table[|table| - 1]];
  }

  lemma {:induction false} TruncateKeeps(p: Pool, rest: multiset<nat>, table: seq<nat>, needed: nat)
    requires PoolInv(p, rest + multiset(table))
    ensures var (p', table') := TruncateTable(p, table, needed);
      && table' == table[..Min(needed, |table|)]
      && PoolInv(p', rest + multiset(table')) && Keeps(p, p', rest + multiset(table'))
      && p'.cache == p.cache
    decreases |table|
  {
    hide PoolInv, Decref;
    if |table| > needed {
      var init, last := table[..|table| - 1], table[|table| - 1];
      LastHeld(rest, table);
      DecrefKeeps(p, rest + multiset(init), last);
      var p1 := Decref(p, last);
      TruncateKeeps(p1, rest, init, needed);
      assert init[..needed] == table[..needed];
      PrefixHeld(rest, init, needed);
      var held := rest + multiset(table[..needed]);
      KeepsSub(p, p1, rest + multiset(init), held);
      KeepsTransitive(p, p1, TruncateTable(p, table, needed).0, held);
    } else {
      assert table[..|table|] == table;
    }
  }

  lemma KeepsSub(p: Pool, p': Pool, held: multiset<nat>, sub: multiset<nat>)
    requires Keeps(p, p', held) && sub <= held
    ensures Keeps(p, p', sub)
  {
  }

  lemma KeepsTransitive(p: Pool, p1: Pool, p2: Pool, held: multiset<nat>)
    requires Keeps(p, p1, held) && Keeps(p1, p2, held)
    ensures Keeps(p, p2, held)
  {
  }

  // ----- publication -----

  /** Registers a full block; the cache takes a reference of its own to a new copy. */
  function PublishEntry(p: Pool, e: Entry): Pool {
    var (c, added) := Insert(p.cache, e);
    if added then Incref(p.(cache := c), e.block) else p.(cache := c)
  }

  lemma PublishKeeps(p: Pool, rest: multiset<nat>, e: Entry)
    requires PoolInv(p, rest + multiset{e.block}) && p.caching && e.block < |p.ref|
    requires forall x :: x in p.cache.lru && x.block == e.block ==> x == e
    ensures var p' := PublishEntry(p, e);
      && PoolInv(p', rest + multiset{e.block}) && Keeps(p, p', rest)
      && (forall x :: x in p'.cache.lru <==> x in p.cache.lru || x == e)
  {
    var held := rest + multiset{e.block};
    if h: Hash :| Entry(h, e.block) in p.cache.lru {
      assert Entry(h, e.block) == e;
      InsertPresent(p.cache, e);
      TouchKeeps(p.cache, e);
      CachedSame(p.cache, Touch(p.cache, e));
    } else {
      assert !IsCached(p.cache, e.block);
      assert held[e.block] < 2;
      InsertNew(p.cache, e);
      InsertCaches(p.cache, e);
      PoolInvMeaning(p, held);
    }
  }

  lemma InsertCaches(c: Cache, e: Entry)
    requires CacheValid(c) && !IsCached(c, e.block)
    ensures forall b :: IsCached(Insert(c, e).0, b) <==> IsCached(c, b) || b == e.block
    ensures forall x :: x in Insert(c, e).0.lru <==> x in c.lru || x == e
  {
    InsertNew(c, e);
    forall b
      ensures IsCached(Insert(c, e).0, b) <==> IsCached(c, b) || b == e.block
    {
      assert Entry(e.hash, e.block) in Insert(c, e).0.lru;
      if h: Hash :| Entry(h, b) in c.lru {
        assert Entry(h, b) in Insert(c, e).0.lru;
      }
      if h: Hash :| Entry(h, b) in Insert(c, e).0.lru {
        assert Entry(h, b) in c.lru || Entry(h, b) == e;
      }
    }
  }
}

/** The mutable objects of the engine's memory: a request, the prefix cache, the device pool
    and the block manager that works on all three in place.  Every method is proved equal to
    the function of the old state that the invariants are stated about. */
module BlockManagers {
  import opened Kv
  import opened BlockPool
  import opened Requests
  import opened Ownership
  import opened System

  /** A request object; its attributes are one record, replaced attribute by attribute. */
  class Request {
    var state: Req

    constructor (tokens: seq<Token>, maxTokens: nat, minTokens: int, ignoreEos: bool, stops: set<Token>, hold: bool, policy: int)
      ensures state == Req(tokens, |tokens|, 0, 0, [], 0, 0, Root, 0, 0, maxTokens, minTokens, ignoreEos, stops, hold,
                           policy, Waiting, NoKv, None)
    {
      state := Req(tokens, |tokens|, 0, 0, [], 0, 0, Root, 0, 0, maxTokens, minTokens, ignoreEos, stops, hold, policy, Waiting, NoKv, None);
    }
  }

  class PrefixCache {
    var index: map<Hash, seq<nat>>
    var lru: seq<Entry>

    function State(): Cache
      reads this
    {
      Cache(index, lru)
    }

    constructor ()
      ensures State() == Cache(map[], [])
    {
      index, lru := map[], [];
    }

    method First(h: Hash) returns (b: Option<nat>)
      ensures b == Lookup(State(), h)
    {
      if h !in index || index[h] == [] {
        return None;
      }
      b := Some(index[h][0]);
    }

    method MoveToEnd(e: Entry)
      modifies this
      ensures State() == Touch(old(State()), e)
    {
      if e in lru {
        lru := Without(lru, e) + [e];
      }
    }

    method Register(e: Entry) returns (added: bool)
      modifies this
      ensures (State(), added) == Insert(old(State()), e)
    {
      var blocks := if e.hash in index then index[e.hash] else [];
      if e.block in blocks {
        MoveToEnd(e);
        return false;
      }
      index := index[e.hash := blocks + [e.block]];
      lru := lru + [e];
      added := true;
    }

    method Remove(e: Entry) returns (removed: bool)
      modifies this
      ensures State() == Drop(old(State()), e)
      ensures removed <==> e.hash in old(index) && e.block in old(index)[e.hash]
    {
      if e.hash !in index || e.block !in index[e.hash] {
        return false;
      }
      var blocks := Without(index[e.hash], e.block);
      lru := Without(lru, e);
      index := if blocks == [] then index - {e.hash} else index[e.hash := blocks];
      removed := true;
    }

    method Clear()
      modifies this
      ensures State() == Cache(map[], [])
    {
      index, lru := map[], [];
    }
  }

  /** The device tensor, one block of entries per physical block. */
  class PagedPool {
    var mem: Memory

    constructor (mem: Memory)
      ensures this.mem == mem
    {
      this.mem := mem;
    }

    method CopyBlock(source: nat, target: nat)
      modifies this
      ensures mem == CopyOne(old(mem), source, target)
    {
      if source < |mem| && target < |mem| {
        mem := mem[target := mem[source]];
      }
    }

    /** `gather`: the first `n` entries of a table, position by position. */
    method Gather(bs: nat, table: seq<nat>, n: nat) returns (cells: seq<Cell>)
      requires bs >= 1 && MemoryShape(mem, bs) && InPool(table, |mem|) && n <= |table| * bs
      ensures n <= |Flat(mem, table)| && cells == Flat(mem, table)[..n]
    {
      hide Flat;
      FlatLength(mem, bs, table);
      cells := [];
      var p := 0;
      while p < n
        invariant 0 <= p <= n && cells == Flat(mem, table)[..p]
      {
        PositionInTable(p, |table|, bs);
        FlatAt(mem, bs, table, p);
        cells := cells + [mem[table[p / bs]][p % bs]];
        p := p + 1;
      }
    }

    /** `store` for one position. */
    method StoreAt(bs: nat, slot: nat, cell: Cell)
      requires bs >= 1 && slot / bs < |mem| && slot % bs < |mem[slot / bs]|
      modifies this
      ensures mem == Store(old(mem), bs, slot, cell)
    {
      var block, offset := slot / bs, slot % bs;
      mem := mem[block := mem[block][offset := cell]];
    }

    /** One request's rows of a forward pass: each position attends to what is stored before it
        and is stored before the next. */
    method RunRows(net: Net, bs: nat, table: seq<nat>, tokens: seq<Token>, from: nat, end: nat)
      requires bs >= 1 && MemoryShape(mem, bs) && InPool(table, |mem|) && end <= |tokens| && end <= |table| * bs
      modifies this
      ensures mem == Forward(net, old(mem), bs, table, tokens, from, end)
    {
      hide Forward, ForwardOne, MemoryShape, Flat;
      var p := from;
      while p < end
        invariant from <= p && MemoryShape(mem, bs) && |mem| == |old(mem)|
        invariant Forward(net, mem, bs, table, tokens, p, end) == Forward(net, old(mem), bs, table, tokens, from, end)
        decreases if p < end then end - p else 0
      {
        ForwardUnfolds(net, mem, bs, table, tokens, p, end);
        PositionInTable(p, |table|, bs);
        SlotDecodes(table, bs, p);
        BlockSize(mem, bs, table[p / bs]);
        var context := Gather(bs, table, p);
        StoreAt(bs, Slot(table, bs, p), net.kv(context, tokens[p]));
        p := p + 1;
      }
      ForwardUnfolds(net, mem, bs, table, tokens, p, end);
    }
  }

  lemma BlockSize(mem: Memory, bs: nat, b: nat)
    requires MemoryShape(mem, bs) && b < |mem|
    ensures |mem[b]| == bs
  {
  }

  lemma ForwardUnfolds(net: Net, mem: Memory, bs: nat, table: seq<nat>, tokens: seq<Token>, p: nat, end: nat)
    requires bs >= 1 && MemoryShape(mem, bs) && InPool(table, |mem|) && end <= |tokens| && end <= |table| * bs
    ensures p >= end ==> Forward(net, mem, bs, table, tokens, p, end) == mem
    ensures p < end ==>
      && p / bs < |table| && p <= |Flat(mem, table)|
      && Slot(table, bs, p) / bs < |mem| && Slot(table, bs, p) % bs < |mem[Slot(table, bs, p) / bs]|
      && var next := Store(mem, bs, Slot(table, bs, p), net.kv(Flat(mem, table)[..p], tokens[p]));
         && MemoryShape(next, bs) && |next| == |mem|
         && Forward(net, mem, bs, table, tokens, p, end) == Forward(net, next, bs, table, tokens, p + 1, end)
  {
    hide Flat;
    if p < end {
      FlatLength(mem, bs, table);
      PositionInTable(p, |table|, bs);
      SlotDecodes(table, bs, p);
    }
  }

  function CopyOne(mem: Memory, source: nat, target: nat): Memory {
    if source < |mem| && target < |mem| then mem[target := mem[source]] else mem
  }

  // ----- one step of each recursive function, as the loops take them -----

  lemma VictimsStep(lru: seq<Entry>, ref: seq<int>, n: int, i: nat)
    requires i < |lru| && n > 0
    ensures Victims(lru[i..], ref, n)
         == if IsIdle(ref, lru[i]) then [lru[i]] + Victims(lru[i + 1..], ref, n - 1) else Victims(lru[i + 1..], ref, n)
  {
    assert lru[i..][1..] == lru[i + 1..];
  }

  lemma NoMoreVictims(lru: seq<Entry>, ref: seq<int>, n: int)
    requires lru == [] || n <= 0
    ensures Victims(lru, ref, n) == []
  {
  }

  lemma DropNothing(p: Pool, victims: seq<Entry>)
    requires victims == []
    ensures DropEntries(p, victims) == p
  {
  }

  lemma DropEntriesStep(p: Pool, victims: seq<Entry>, i: nat)
    requires i < |victims|
    ensures DropEntries(p, victims[i..])
         == DropEntries(Decref(p.(cache := Drop(p.cache, victims[i])), victims[i].block), victims[i + 1..])
  {
    assert victims[i..][1..] == victims[i + 1..];
  }

  lemma DecrefAllStep(p: Pool, table: seq<nat>, i: nat)
    requires i < |table|
    ensures DecrefAll(p, table[i..]) == DecrefAll(Decref(p, table[i]), table[i + 1..])
  {
    assert table[i..][1..] == table[i + 1..];
  }

  function CowOne(p: Pool, table: seq<nat>, i: nat): Option<(Pool, seq<nat>, seq<(nat, nat)>)>
    requires i < |table|
  {
    if table[i] >= |p.ref| || p.ref[table[i]] <= 1 then Some((p, table, []))
    else
      match AllocBlock(p)
      case None => None
      case Some((q, b)) => Some((Decref(q, table[i]), table[i := b], [(table[i], b)]))
  }

  lemma CowOneUnshared(p: Pool, table: seq<nat>, from: nat, i: nat)
    requires from <= i < |table|
    ensures NoneShared(p, table, from) ==> CowOne(p, table, i) == Some((p, table, []))
  {
    hide AllocBlock;
  }

  function CowCopies(p: Pool, table: seq<nat>, i: nat): seq<(nat, nat)>
    requires i < |table|
  {
    match CowOne(p, table, i)
    case None => []
    case Some((_, _, copies)) => copies
  }

  lemma CowRangeStep(p: Pool, table: seq<nat>, i: nat, end: nat)
    ensures i >= end || i >= |table| ==> CowRange(p, table, i, end) == (p, table, [])
    ensures i < end && i < |table| && CowOne(p, table, i).Some? ==>
      var (q, table', copies) := CowOne(p, table, i).value;
      var (q', table'', more) := CowRange(q, table', i + 1, end);
      CowRange(p, table, i, end) == (q', table'', copies + more)
  {
    hide AllocBlock;
    if i < end && i < |table| && (table[i] >= |p.ref| || p.ref[table[i]] <= 1) {
      var more := CowRange(p, table, i + 1, end).2;
      assert [] + more == more;
    }
  }

  lemma CopyNone(mem: Memory)
    ensures CopyBlocks(mem, []) == mem
  {
  }

  lemma {:induction false} CopyBlocksConcat(mem: Memory, a: seq<(nat, nat)>, b: seq<(nat, nat)>)
    ensures CopyBlocks(mem, a + b) == CopyBlocks(CopyBlocks(mem, a), b)
    decreases |a|
  {
    if a == [] {
      assert a + b == b;
    } else {
      assert (a + b)[1..] == a[1..] + b;
      CopyBlocksConcat(CopyOne(mem, a[0].0, a[0].1), a[1..], b);
    }
  }

  lemma CanAllocateReads(p: Pool, r: Req, r': Req, n: int)
    requires p.bs >= 1 && r'.computed == r.computed && r'.table == r.table
    ensures CanAllocate(p, r', n) == CanAllocate(p, r, n)
  {
    hide EvictUnused, BlocksNeededFor;
  }

  class BlockManager {
    const bs: nat
    const caching: bool
    const cache: PrefixCache
    var free: seq<nat>
    var ref: seq<int>
    var epoch: nat

    function State(): Pool
      reads this, cache
    {
      Pool(bs, caching, free, ref, cache.State(), epoch)
    }

    constructor (blocks: nat, bs: nat, caching: bool)
      ensures State() == Pool(bs, caching, seq(blocks, i requires 0 <= i => i), seq(blocks, _ => 0), Cache(map[], []), 0)
      ensures fresh(cache)
    {
      this.bs, this.caching, epoch := bs, caching, 0;
      free := seq(blocks, i requires 0 <= i => i);
      ref := seq(blocks, _ => 0);
      cache := new PrefixCache();
    }

    /** `reset`: a pool of the same size with nothing in it, one epoch later. */
    method Reset()
      modifies this`ref, this`free, this`epoch, cache
      ensures State() == ResetPool(old(State()))
    {
      cache.Clear();
      free := seq(|ref|, i requires 0 <= i => i);
      ref := seq(|ref|, _ => 0);
      epoch := epoch + 1;
      assert free == ResetPool(old(State())).free && ref == ResetPool(old(State())).ref;
    }

    method AddRef(b: nat)
      modifies this`ref
      ensures State() == Incref(old(State()), b)
    {
      if b < |ref| {
        ref := ref[b := ref[b] + 1];
      }
    }

    method Release(b: nat)
      modifies this`ref, this`free
      ensures State() == Decref(old(State()), b)
    {
      if b < |ref| {
        ref := ref[b := ref[b] - 1];
        if ref[b] == 0 {
          free := free + [b];
        }
      }
    }

    method ChooseVictims(n: nat) returns (victims: seq<Entry>)
      requires n > 0
      ensures victims == Victims(cache.lru, ref, n)
    {
      hide Victims;
      victims := [];
      var i := 0;
      assert cache.lru[0..] == cache.lru;
      while i < |cache.lru| && |victims| < n
        invariant 0 <= i <= |cache.lru| && |victims| <= n
        invariant Victims(cache.lru, ref, n) == victims + Victims(cache.lru[i..], ref, n - |victims|)
      {
        VictimsStep(cache.lru, ref, n - |victims|, i);
        if cache.lru[i].block < |ref| && ref[cache.lru[i].block] == 1 {
          victims := victims + [cache.lru[i]];
        }
        i := i + 1;
      }
      NoMoreVictims(cache.lru[i..], ref, n - |victims|);
    }

    method DropVictims(victims: seq<Entry>)
      modifies this`ref, this`free, cache
      ensures State() == DropEntries(old(State()), victims)
    {
      hide DropEntries, Decref, Drop;
      var i := 0;
      assert victims[0..] == victims;
      while i < |victims|
        invariant 0 <= i <= |victims|
        invariant DropEntries(State(), victims[i..]) == DropEntries(old(State()), victims)
      {
        DropEntriesStep(State(), victims, i);
        var _ := cache.Remove(victims[i]);
        Release(victims[i].block);
        i := i + 1;
      }
      DropNothing(State(), victims[i..]);
    }

    /** `_evict_unused`: first the victims are chosen, then they are dropped. */
    method Evict(n: int)
      modifies this`ref, this`free, cache
      ensures State() == EvictUnused(old(State()), n)
    {
      hide Victims, DropEntries;
      if !caching || n <= 0 {
        return;
      }
      var victims := ChooseVictims(n);
      DropVictims(victims);
    }

    /** `_alloc_block`; `None` is the error of an empty free list. */
    method Alloc() returns (b: Option<nat>)
      modifies this`ref, this`free, cache
      ensures match AllocBlock(old(State()))
        case None => b.None?
        case Some((p, x)) => b == Some(x) && State() == p
    {
      if free == [] {
        Evict(1);
      }
      if free == [] || free[0] >= |ref| {
        return None;
      }
      b := Some(free[0]);
      free, ref := free[1..], ref[free[0] := 1];
    }

    method CanAllocateTokens(req: Request, n: int) returns (ok: bool)
      requires bs >= 1
      modifies this`ref, this`free, cache
      ensures (State(), ok) == CanAllocate(old(State()), req.state, n)
    {
      if n <= 0 {
        return true;
      }
      var needed := BlocksNeededFor(req.state.computed + n, bs) - |req.state.table|;
      if needed <= |free| {
        return true;
      }
      Evict(needed - |free|);
      ok := needed <= |free|;
    }

    method MaxAllocatableTokens(req: Request, limit: int) returns (n: nat)
      requires bs >= 1
      modifies this`ref, this`free, cache
      ensures (State(), n) == MaxAllocatable(old(State()), req.state, limit)
    {
      if limit <= 0 {
        return 0;
      }
      var extra := BlocksNeededFor(req.state.computed + limit, bs) - |req.state.table|;
      if extra > |free| {
        Evict(extra - |free|);
      }
      var m := Min(limit, (|req.state.table| + |free|) * bs - req.state.computed);
      n := if m < 0 then 0 else m;
    }

    /** The loop that appends fresh blocks to the table. */
    method Extend(req: Request, needed: nat) returns (ok: bool)
      modifies this`ref, this`free, cache, req
      ensures ok ==> State() == Grow(old(State()), old(req.state.table), needed).0 && req.state.table == Grow(old(State()), old(req.state.table), needed).1
      ensures ok <==> |Grow(old(State()), old(req.state.table), needed).1| >= needed
      ensures req.state == old(req.state).(table := req.state.table)
    {
      while |req.state.table| < needed
        invariant Grow(State(), req.state.table, needed) == Grow(old(State()), old(req.state.table), needed)
        invariant req.state == old(req.state).(table := req.state.table)
        decreases needed - |req.state.table|
      {
        var b := Alloc();
        if b.None? {
          return false;
        }
        req.state := req.state.(table := req.state.table + [b.value]);
      }
      ok := true;
    }

    /** `_cow_if_shared`. */
    method CopyIfShared(req: Request, i: nat, kv: PagedPool) returns (ok: bool)
      requires i < |req.state.table|
      modifies this`ref, this`free, cache, req, kv
      ensures match CowOne(old(State()), old(req.state.table), i)
        case None => !ok
        case Some((p, table, copies)) =>
          ok && State() == p && req.state == old(req.state).(table := table) && kv.mem == CopyBlocks(old(kv.mem), copies)
    {
      hide AllocBlock;
      var b := req.state.table[i];
      if b >= |ref| || ref[b] <= 1 {
        return true;
      }
      var target := Alloc();
      if target.None? {
        return false;
      }
      kv.CopyBlock(b, target.value);
      Release(b);
      req.state := req.state.(table := req.state.table[i := target.value]);
      ok := true;
    }

    /** Copy-on-write over entries [from, to) of the table. */
    method CopyShared(req: Request, from: nat, to: nat, kv: PagedPool) returns (ok: bool)
      modifies this`ref, this`free, cache, req, kv
      ensures var (p, table, copies) := CowRange(old(State()), old(req.state.table), from, to);
        ok ==> State() == p && req.state == old(req.state).(table := table) && kv.mem == CopyBlocks(old(kv.mem), copies)
      ensures NoneShared(old(State()), old(req.state.table), from) ==> ok
    {
      hide CowRange, CowOne, NoneShared, CopyBlocks;
      ghost var done: seq<(nat, nat)> := [];
      var i := from;
      CopyNone(kv.mem);
      assert done + CowRange(State(), req.state.table, i, to).2 == CowRange(State(), req.state.table, i, to).2;
      while i < to && i < |req.state.table|
        invariant from <= i
        invariant var (p, table, rest) := CowRange(State(), req.state.table, i, to);
          (p, table, done + rest) == CowRange(old(State()), old(req.state.table), from, to)
        invariant kv.mem == CopyBlocks(old(kv.mem), done) && req.state == old(req.state).(table := req.state.table)
        invariant NoneShared(old(State()), old(req.state.table), from) ==> State() == old(State()) && req.state == old(req.state)
        decreases if i < to then to - i else 0
      {
        CowOneUnshared(State(), req.state.table, from, i);
        CowRangeStep(State(), req.state.table, i, to);
        ghost var copies := CowCopies(State(), req.state.table, i);
        ok := CopyIfShared(req, i, kv);
        if !ok {
          return;
        }
        CopyBlocksConcat(old(kv.mem), done, copies);
        ghost var more := CowRange(State(), req.state.table, i + 1, to).2;
        assert (done + copies) + more == done + (copies + more);
        done := done + copies;
        i := i + 1;
      }
      CowRangeStep(State(), req.state.table, i, to);
      assert done + [] == done;
      ok := true;
    }

    /** `allocate_for_tokens`; `false` is the exhausted-pool error. */
    method AllocateForSpan(req: Request, n: nat, kv: PagedPool) returns (ok: bool)
      requires bs >= 1
      modifies this`ref, this`free, cache, req, kv
      ensures match AllocateForTokens(old(State()), old(req.state), n)
        case Exhausted(_) => !ok
        case Allocated(p, r, copies) => ok ==> State() == p && req.state == r && kv.mem == CopyBlocks(old(kv.mem), copies)
      ensures Grantable(old(State()), old(req.state), n) ==> ok
    {
      hide CanAllocate, Grow, CowRange, BlocksNeededFor;
      req.state := req.state.(epoch := epoch);
      CanAllocateReads(State(), old(req.state), req.state, n);
      ok := CanAllocateTokens(req, n);
      if !ok {
        return;
      }
      var end := req.state.computed + n;
      ok := Extend(req, BlocksNeededFor(end, bs));
      if ok && caching {
        ok := CopyShared(req, req.state.computed / bs, BlocksNeededFor(end, bs), kv);
      }
    }

    method FreeTable(req: Request)
      modifies this`ref, this`free, req
      ensures (State(), req.state) == Deallocate(old(State()), old(req.state))
    {
      var i := 0;
      while i < |req.state.table|
        invariant 0 <= i <= |req.state.table| && req.state == old(req.state)
        invariant DecrefAll(State(), req.state.table[i..]) == DecrefAll(old(State()), req.state.table)
      {
        DecrefAllStep(State(), req.state.table, i);
        Release(req.state.table[i]);
        i := i + 1;
      }
      req.state := req.state.(table := []);
    }

    method Truncate(req: Request, n: nat)
      requires bs >= 1
      modifies this`ref, this`free, req
      ensures (State(), req.state) == TruncateKv(old(State()), old(req.state), n)
    {
      var needed := BlocksNeededFor(n, bs);
      while |req.state.table| > needed
        invariant TruncateTable(State(), req.state.table, needed) == TruncateTable(old(State()), old(req.state.table), needed)
        invariant req.state == old(req.state).(table := req.state.table)
        decreases |req.state.table|
      {
        var last := req.state.table[|req.state.table| - 1];
        req.state := req.state.(table := req.state.table[..|req.state.table| - 1]);
        Release(last);
      }
      req.state := req.state.(published := Min(req.state.published, needed));
    }

    /** The walk over full blocks, up to the first miss. */
    method ShareBlocks(req: Request, full: nat) returns (i: nat, parent: Hash)
      modifies this`ref, cache, req
      ensures (State(), i, req.state.table, parent) == AttachLoop(old(State()), old(req.state.tokens), 0, full, old(req.state.table), Root)
      ensures req.state == old(req.state).(table := req.state.table)
    {
      hide Lookup, BlockTokens, Touch, Drop, Incref;
      parent := Root;
      i := 0;
      while i < full
        invariant req.state == old(req.state).(table := req.state.table)
        invariant AttachLoop(State(), req.state.tokens, i, full, req.state.table, parent)
               == AttachLoop(old(State()), old(req.state.tokens), 0, full, old(req.state.table), Root)
        decreases full - i
      {
        var h := Link(parent, BlockTokens(req.state.tokens, bs, i));
        var b := cache.First(h);
        if b.None? {
          return;
        }
        if b.value >= |ref| || ref[b.value] <= 0 {
          var _ := cache.Remove(Entry(h, b.value));
          return;
        }
        cache.MoveToEnd(Entry(h, b.value));
        AddRef(b.value);
        req.state := req.state.(table := req.state.table + [b.value]);
        parent := h;
        i := i + 1;
      }
    }

    method Attach(req: Request)
      requires bs >= 1
      modifies this`ref, cache, req
      ensures (State(), req.state) == AttachCachedPrefix(old(State()), old(req.state))
    {
      hide AttachLoop;
      req.state := req.state.(cached := 0, published := 0, parent := Root);
      if !caching {
        return;
      }
      var full := if |req.state.tokens| == 0 then 0 else (|req.state.tokens| - 1) / bs;
      var i, parent := ShareBlocks(req, full);
      req.state := req.state.(computed := i * bs, cached := i * bs, published := i, parent := parent);
    }

    /** A copy that is new to the cache gets the cache's own reference. */
    method PublishBlock(e: Entry)
      modifies this`ref, cache
      ensures State() == PublishEntry(old(State()), e)
    {
      var added := cache.Register(e);
      if added {
        AddRef(e.block);
      }
    }

    /** `publish_full_blocks`. */
    method PublishFull(req: Request)
      requires bs >= 1
      modifies this`ref, cache, req
      ensures (State(), req.state) == PublishFullBlocks(old(State()), old(req.state))
    {
      hide PublishEntry;
      if !caching {
        return;
      }
      var full := Min(|req.state.table|, req.state.computed / bs);
      while req.state.published < full && req.state.published * bs + bs <= |req.state.tokens|
        invariant req.state == old(req.state).(published := req.state.published, parent := req.state.parent)
        invariant PublishLoop(State(), req.state.tokens, req.state.table, req.state.published, full, req.state.parent)
               == PublishLoop(old(State()), req.state.tokens, req.state.table, old(req.state.published), full, old(req.state.parent))
        decreases full - req.state.published
      {
        var h := Link(req.state.parent, BlockTokens(req.state.tokens, bs, req.state.published));
        PublishBlock(Entry(h, req.state.table[req.state.published]));
        req.state := req.state.(parent := h, published := req.state.published + 1);
      }
    }
  }
}

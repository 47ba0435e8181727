/** What a bare invalidation does to an engine, whatever state it is in: from a safe one the cache
    stays right over every later run, and from any other some run of finishes and steps leaves a
    wrong copy in it. */
module Resets {
  import opened Kv
  import opened BlockPool
  import opened Requests
  import opened Ownership
  import opened OwnershipSteps
  import opened SpecDecode
  import opened System
  import opened SystemInv
  import opened ScheduleInv
  import opened Engine
  import opened Runs
  import opened Invalidation
  import L = Liveness
  import SP = StaleParent

  // ----- the request that would publish under the old parent, alone -----

  function Healed(r: Req): Req {
    r.(parent := Root)
  }

  /** Request `k` alone in the engine, recomputing its first block as `r0` left it; but for its
      parent it is in order. */
  ghost predicate Lone(s: Sys, k: nat, r0: Req, bs: nat) {
    && k < |s.reqs| && s.running == [k] && s.waiting == []
    && s.pool.bs == bs >= 1 && s.pool.caching && s.pool.cache.lru == []
    && Recomputes(s.reqs[k], r0, bs) && BlocksNeededFor(|r0.tokens|, bs) <= |s.pool.ref|
    && Local(Counting(), s.pool, s.mem, multiset{}, Healed(s.reqs[k]))
  }

  predicate Recomputes(r: Req, r0: Req, bs: nat) {
    && r.tokens == r0.tokens && r.parent == r0.parent && r.published == 0 && r.draft == 0 && r.scheduled == 0
    && r.status == Running && r.computed < bs < |r.tokens|
  }

  function NoDrafts(): Proposer {
    (r: Req) => []
  }

  lemma {:induction false} GrowUncached(p: Pool, table: seq<nat>, needed: nat)
    requires p.cache.lru == []
    ensures Grow(p, table, needed).0.cache.lru == []
    decreases needed - |table|
  {
    if |table| < needed && AllocBlock(p).Some? {
      var (q, b) := AllocBlock(p).value;
      GrowUncached(q, table + [b], needed);
    }
  }

  /** Nothing is cached and one table holds every reference: all other blocks are free. */
  lemma FreeIsTheRest(p: Pool, table: seq<nat>)
    requires PoolInv(p, multiset(table)) && p.cache.lru == []
    ensures |p.free| + |table| == |p.ref| && Available(p) == |p.free|
  {
    L.FreeAndTable(p.(caching := false), table);
  }

  /** What the next step plans for it: as many tokens as the budget allows. */
  function NextSpan(cfg: Config, r: Req): nat {
    Min(r.Uncomputed(), cfg.maxBatched)
  }

  lemma LonePlan(cfg: Config, s: Sys, k: nat, r0: Req, bs: nat)
    requires Lone(s, k, r0, bs) && cfg.maxBatched >= 1
    ensures var r, n := s.reqs[k], NextSpan(cfg, s.reqs[k]);
      && n >= 1 && r.computed + n <= |r.tokens| && TokensToSchedule(s.pool, r, cfg.maxBatched) == (s.pool, n)
      && BlocksNeededFor(r.computed + n, bs) - |r.table| <= |s.pool.free| == Available(s.pool)
  {
    hide Local, Rest, EvictUnused, Available, BlocksNeededFor;
    var p, r, n := s.pool, s.reqs[k], NextSpan(cfg, s.reqs[k]);
    LocalPool(Counting(), p, s.mem, multiset{}, Healed(r));
    assert multiset{} + multiset(r.table) == multiset(r.table);
    FreeIsTheRest(p, r.table);
    BlocksNeededForMeaning(|r.tokens|, bs, |p.ref|);
    BlocksNeededForMeaning(r.computed + n, bs, |p.ref|);
  }

  /** Allocation does not look at the parent. */
  lemma AllocateHealed(p: Pool, r: Req, n: nat)
    requires p.bs >= 1
    ensures var a, b := AllocateForTokens(p, r, n), AllocateForTokens(p, Healed(r), n);
      if a.Allocated? then b == Allocated(a.pool, Healed(a.req), a.copies) && a.req.parent == r.parent else b == a
  {
    hide EvictUnused, Grow, CowRange, BlocksNeededFor;
  }

  /** The engine once the step's batch is chosen. */
  function LoneMid(cfg: Config, s: Sys, k: nat): Sys
    requires k < |s.reqs| && s.pool.bs >= 1
  {
    var n := NextSpan(cfg, s.reqs[k]);
    match AllocateForTokens(s.pool, s.reqs[k], n)
    case Exhausted(_) => s
    case Allocated(q, r, _) => s.(pool := q, reqs := s.reqs[k := r.(scheduled := n)])
  }

  ghost predicate LonePlanned(cfg: Config, s: Sys, k: nat, mid: Sys) {
    && k < |s.reqs| && |mid.reqs| == |s.reqs| && mid == s.(pool := mid.pool, reqs := s.reqs[k := mid.reqs[k]])
    && mid.pool.bs == s.pool.bs && mid.pool.caching && |mid.pool.ref| == |s.pool.ref| && mid.pool.cache.lru == []
    && var r, r', n := s.reqs[k], mid.reqs[k], NextSpan(cfg, s.reqs[k]);
      && r' == r.(table := r'.table, epoch := r'.epoch, scheduled := n) && r.computed + n <= |r'.table| * s.pool.bs
      && Local(Counting(), mid.pool, s.mem, multiset{}, Healed(r'))
  }

  lemma LoneAllocates(cfg: Config, s: Sys, k: nat, r0: Req, bs: nat)
    requires Lone(s, k, r0, bs) && cfg.maxBatched >= 1
    ensures var mid, r, n := LoneMid(cfg, s, k), s.reqs[k], NextSpan(cfg, s.reqs[k]);
      && LonePlanned(cfg, s, k, mid)
      && AllocateForTokens(s.pool, r, n) == Allocated(mid.pool, mid.reqs[k].(scheduled := 0), [])
  {
    hide Local, Available, BlocksNeededFor, AllocateForTokens, Frame, TokensToSchedule, PublishReady;
    var p, r, n := s.pool, s.reqs[k], NextSpan(cfg, s.reqs[k]);
    LonePlan(cfg, s, k, r0, bs);
    RunningReady(Counting(), p, s.mem, multiset{}, Healed(r));
    AllocateStep(Counting(), p, s.mem, multiset{}, Healed(r), n);
    AllocateHealed(p, r, n);
    AllocateUncached(p, r, n);
    var Allocated(q, h, _) := AllocateForTokens(p, Healed(r), n);
    FrameShape(p, s.mem, q, s.mem, multiset{});
    SameKvKeeps(Counting(), q, s.mem, multiset{}, h, h.(scheduled := n));
  }

  lemma AllocateUncached(p: Pool, r: Req, n: nat)
    requires p.bs >= 1 && p.cache.lru == [] && AllocateForTokens(p, r, n).Allocated?
    requires AllocateForTokens(p, r, n).copies == []
    ensures AllocateForTokens(p, r, n).pool.cache.lru == []
  {
    hide Grow, BlocksNeededFor;
    var p1 := CanAllocate(p, r, n).0;
    var needed := BlocksNeededFor(r.computed + n, p.bs);
    GrowUncached(p1, r.table, needed);
    var (p2, table) := Grow(p1, r.table, needed);
    if p.caching {
      CowNothing(p2, table, r.computed / p.bs, needed);
    }
  }

  lemma {:induction false} CowNothing(p: Pool, table: seq<nat>, i: nat, end: nat)
    requires CowRange(p, table, i, end).2 == []
    ensures CowRange(p, table, i, end).0 == p
    decreases end - i
  {
    if i < end && i < |table| && (table[i] >= |p.ref| || p.ref[table[i]] <= 1) {
      CowNothing(p, table, i + 1, end);
    }
  }

  lemma LoneSchedule(cfg: Config, s: Sys, k: nat, r0: Req, bs: nat)
    requires Lone(s, k, r0, bs) && cfg.maxSeqs >= 1 && cfg.maxBatched >= 1
    ensures LonePlanned(cfg, s, k, LoneMid(cfg, s, k))
    ensures Schedule(cfg, NoDrafts(), s) == Scheduled(LoneMid(cfg, s, k), [k])
  {
    hide Local, AllocateForTokens, TokensToSchedule, ScheduleLoop, BlocksNeededFor, Available;
    LonePlan(cfg, s, k, r0, bs);
    LoneAllocates(cfg, s, k, r0, bs);
    NothingProposed(cfg, s.pool, s.reqs[k], cfg.maxBatched);
    var mid, n := LoneMid(cfg, s, k), NextSpan(cfg, s.reqs[k]);
    SP.RunningAlone(cfg, NoDrafts(), s, k, n, mid.pool, mid.reqs[k].(scheduled := 0));
  }

  lemma NothingProposed(cfg: Config, p: Pool, r: Req, budget: nat)
    requires p.bs >= 1
    ensures MaybeAttachDrafts(cfg, NoDrafts(), p, r, budget) == (p, r)
  {
    hide MaxAllocatable;
  }

  // ----- one step of it -----

  lemma LoneForward(cfg: Config, s: Sys, k: nat, r0: Req, bs: nat)
    requires Lone(s, k, r0, bs) && LonePlanned(cfg, s, k, LoneMid(cfg, s, k)) && cfg.maxBatched >= 1
    ensures var mid := LoneMid(cfg, s, k); var r := mid.reqs[k]; var end := r.computed + r.scheduled;
      var ran := RunOne(Counting(), mid, k);
      && ran == mid.(mem := ran.mem) && end <= |r.tokens| && MemoryShape(ran.mem, bs)
      && Local(Counting(), mid.pool, ran.mem, multiset{}, Healed(r.(computed := end, scheduled := 0)))
      && Holds(Counting(), ran.mem, r.table, r.tokens, end)
  {
    hide Local, Forward, Holds, Frame, LoneMid, BlocksNeededFor;
    var mid := LoneMid(cfg, s, k);
    var r := mid.reqs[k];
    var h, end := Healed(r), r.computed + r.scheduled;
    ForwardLocal(Counting(), mid.pool, s.mem, multiset{}, h, end);
    var mem := Forward(Counting(), s.mem, bs, r.table, r.tokens, r.computed, end);
    AdvanceStep(Counting(), mid.pool, mem, multiset{}, h, end);
    SameKvKeeps(Counting(), mid.pool, mem, multiset{}, h.(computed := end), Healed(r.(computed := end, scheduled := 0)));
    LocalShape(Counting(), mid.pool, mem, multiset{}, h);
  }

  /** Nothing is published before the first block is complete. */
  lemma NothingPublished(p: Pool, r: Req)
    requires p.bs >= 1 && r.published == 0 && r.computed < p.bs
    ensures PublishFullBlocks(p, r) == (p, r)
  {
    PositionInTable(r.computed, 1, p.bs);
    assert r.(published := 0, parent := r.parent) == r;
  }

  lemma {:induction false} DecrefAllCache(p: Pool, table: seq<nat>)
    ensures DecrefAll(p, table).cache == p.cache
    decreases |table|
  {
    if table != [] {
      DecrefAllCache(Decref(p, table[0]), table[1..]);
    }
  }

  lemma CompletionKeepsCache(cfg: Config, s: Sys, k: nat)
    requires k < |s.reqs|
    ensures var s' := CompleteIfDone(cfg, s, k); s'.pool.cache == s.pool.cache && s'.pool.bs == s.pool.bs && s'.mem == s.mem
  {
    hide DecrefAll;
    DecrefAllCache(s.pool, s.reqs[k].table);
    L.DecrefAllCaching(s.pool, s.reqs[k].table);
  }

  lemma PostKeepsCache(cfg: Config, s: Sys, k: nat, token: Option<Token>)
    requires k < |s.reqs| && s.pool.bs >= 1
    ensures var r := s.reqs[k]; var p := PublishFullBlocks(s.pool, r.(computed := r.computed + r.scheduled, scheduled := 0)).0;
      var s' := PostOne(cfg, s, k, token);
      && s'.pool.cache == p.cache && s'.pool.bs == p.bs && s'.mem == s.mem
  {
    hide PublishFullBlocks, CompleteIfDone;
    var r := s.reqs[k];
    var s1 := Publish(SetReq(s, k, s.pool, r.(computed := r.computed + r.scheduled, scheduled := 0)), k);
    if token.Some? {
      CompletionKeepsCache(cfg, SetReq(s1, k, s1.pool, Append(s1.reqs[k], [token.value])), k);
    }
  }

  /** The engine after one more step. */
  ghost function LoneNext(cfg: Config, s: Sys): Sys {
    PagedApply(cfg, World(Counting(), s), Step(NoDrafts())).0.s
  }

  lemma LoneSteps(cfg: Config, s: Sys, k: nat, r0: Req, bs: nat)
    requires Lone(s, k, r0, bs) && cfg.maxSeqs >= 1 && cfg.maxBatched >= 1
    ensures LonePlanned(cfg, s, k, LoneMid(cfg, s, k))
    ensures var ran := RunOne(Counting(), LoneMid(cfg, s, k), k);
      ran.pool.bs == bs && |ran.reqs| == |s.reqs| && LoneNext(cfg, s) == PostOne(cfg, ran, k, PagedToken(Counting(), ran, k))
    ensures PagedApply(cfg, World(Counting(), s), Step(NoDrafts())).0.net == Counting()
  {
    hide Local, ScheduleLoop, PagedBatch, RunOne, PagedToken, PostOne, BlocksNeededFor, LoneMid;
    LoneSchedule(cfg, s, k, r0, bs);
    var mid := LoneMid(cfg, s, k);
    SP.BatchAlone(Counting(), cfg, mid, k);
    SP.RanShape(Counting(), mid, k);
  }

  /** Short of a whole block the step only moves the mark. */
  lemma LoneAdvances(cfg: Config, s: Sys, k: nat, r0: Req, bs: nat)
    requires Lone(s, k, r0, bs) && cfg.maxSeqs >= 1 && cfg.maxBatched >= 1
    requires s.reqs[k].computed + NextSpan(cfg, s.reqs[k]) < bs
    ensures Lone(LoneNext(cfg, s), k, r0, bs) && LoneNext(cfg, s).reqs[k].computed > s.reqs[k].computed
  {
    hide Local, RunOne, LoneMid, PublishFullBlocks, LoneNext, MemoryShape, Holds, BlocksNeededFor;
    LoneSteps(cfg, s, k, r0, bs);
    LoneForward(cfg, s, k, r0, bs);
    var mid := LoneMid(cfg, s, k);
    var ran := RunOne(Counting(), mid, k);
    var r := mid.reqs[k];
    NothingPublished(mid.pool, r.(computed := r.computed + r.scheduled, scheduled := 0));
  }

  /** The step that completes the first block publishes it under the wrong hash. */
  lemma LoneSpoils(cfg: Config, s: Sys, k: nat, r0: Req, bs: nat)
    requires Lone(s, k, r0, bs) && cfg.maxSeqs >= 1 && cfg.maxBatched >= 1 && HashTokens(r0.parent) != []
    requires s.reqs[k].computed + NextSpan(cfg, s.reqs[k]) >= bs
    ensures LoneNext(cfg, s).pool.bs == bs && !CacheHolds(Counting(), LoneNext(cfg, s).mem, bs, LoneNext(cfg, s).pool.cache.lru)
  {
    hide Local, RunOne, LoneMid, PublishFullBlocks, LoneNext, PostOne, CacheHolds, HashTokens, MemoryShape, Holds, BlocksNeededFor;
    LoneSteps(cfg, s, k, r0, bs);
    LoneForward(cfg, s, k, r0, bs);
    var mid := LoneMid(cfg, s, k);
    var ran := RunOne(Counting(), mid, k);
    var r := mid.reqs[k].(computed := mid.reqs[k].computed + mid.reqs[k].scheduled, scheduled := 0);
    PostKeepsCache(cfg, ran, k, PagedToken(Counting(), ran, k));
    LoneTable(mid.pool, ran.mem, r);
    UnsafeCorrupts(mid.pool, ran.mem, r);
    PublishKeepsSize(mid.pool, r);
  }

  lemma LoneTable(p: Pool, mem: Memory, r: Req)
    requires Local(Counting(), p, mem, multiset{}, Healed(r)) && p.cache.lru == [] && r.computed >= 1
    ensures CacheValid(p.cache) && r.table != [] && !IsCached(p.cache, r.table[0])
  {
    hide Holds, CacheValid;
    LocalShape(Counting(), p, mem, multiset{}, Healed(r));
  }

  lemma {:induction false} PublishLoopSize(p: Pool, tokens: seq<Token>, table: seq<nat>, i: nat, full: nat, parent: Hash)
    requires full <= |table|
    ensures PublishLoop(p, tokens, table, i, full, parent).0.bs == p.bs
    decreases full - i
  {
    hide Insert, BlockTokens;
    if i < full && i * p.bs + p.bs <= |tokens| {
      var h := Link(parent, BlockTokens(tokens, p.bs, i));
      PublishLoopSize(PublishEntry(p, Entry(h, table[i])), tokens, table, i + 1, full, h);
    }
  }

  lemma PublishKeepsSize(p: Pool, r: Req)
    requires p.bs >= 1
    ensures PublishFullBlocks(p, r).0.bs == p.bs
  {
    hide PublishLoop;
    PublishLoopSize(p, r.tokens, r.table, r.published, Min(|r.table|, r.computed / p.bs), r.parent);
  }

  // ----- everybody else finishes -----

  /** The invalidated engine with the requests below `i`, except `k`, finished. */
  ghost predicate Cleared(s0: Sys, s: Sys, k: nat, i: nat) {
    && k < |s0.reqs| == |s.reqs| && s.pool == ResetPool(s0.pool) && s.mem == s0.mem
    && s.reqs[k] == s0.reqs[k].(table := []).ResetKv() && Queues(s.reqs, s.waiting, s.running)
    && (forall j :: 0 <= j < |s.reqs| ==> s.reqs[j].table == [])
    && (forall j :: 0 <= j < i && j < |s.reqs| && j != k ==> !Live(s.reqs[j]))
  }

  lemma ClearOne(s0: Sys, s: Sys, k: nat, i: nat)
    requires Cleared(s0, s, k, i) && i < |s.reqs|
    ensures Cleared(s0, if i == k then s else Release(s, i), k, i + 1)
  {
    hide ResetPool, Without;
    if i != k && s.reqs[i].status != Finished {
      QueuesLeave(s.reqs, s.waiting, s.running, i, s.reqs[i].(table := [], status := Finished).ResetKv());
    }
  }

  lemma ClearedAlone(s0: Sys, s: Sys, k: nat)
    requires Cleared(s0, s, k, |s0.reqs|) && s0.reqs[k].status == Running
    ensures s.running == [k] && s.waiting == []
  {
    hide ResetPool;
    assert forall j :: j in s.running ==> j == k;
    OneMember(s.running, k);
    HasFirst(s.waiting);
  }

  lemma HasFirst(s: seq<nat>)
    ensures s != [] ==> s[0] in s
  {
  }

  lemma OneMember(s: seq<nat>, k: nat)
    requires Distinct(s) && k in s && forall j :: j in s ==> j == k
    ensures s == [k]
  {
    WithoutElements(s, k);
    HasFirst(Without(s, k));
  }

  /** Then `k` is alone, about to recompute a history longer than a block. */
  lemma ClearedIsLone(net: Net, s0: Sys, s: Sys, k: nat)
    requires SysInv(net, s0) && Cleared(s0, s, k, |s0.reqs|) && s0.pool.caching
    requires s0.reqs[k].status == Running && s0.reqs[k].parent != Root
    ensures Lone(s, k, s0.reqs[k], s0.pool.bs) && HashTokens(s0.reqs[k].parent) != []
  {
    hide KvInv, Queues, ResetPool, PoolInv, CacheValid, HashTokens, BlocksNeededFor, ReqInv;
    var bs, r0, r := s0.pool.bs, s0.reqs[k], s.reqs[k];
    ClearedAlone(s0, s, k);
    KvShape(net, s0);
    KvMemory(net, s0);
    ParentIsLong(net, s0, k);
    ResetPoolInv(s0.pool);
    assert Shaped(bs, |s0.pool.ref|, r0);
    BlocksNeededForMeaning(r0.prompt + r0.maxTokens, bs, |s0.pool.ref|);
    BlocksNeededForMeaning(|r0.tokens|, bs, |s0.pool.ref|);
    DroppedReqInv(Counting(), s.pool, s.mem, Healed(r));
    assert multiset{} + multiset(r.table) == multiset{};
  }

  // ----- whole runs -----

  ghost function EndOf(cfg: Config, w: World, ops: seq<Op>): World {
    PagedRun(cfg, w, ops).0
  }

  ghost predicate RightCache(w: World) {
    CacheHolds(w.net, w.s.mem, w.s.pool.bs, w.s.pool.cache.lru)
  }

  ghost predicate FinishesAndSteps(ops: seq<Op>) {
    forall i :: 0 <= i < |ops| ==> ops[i].Finish? || ops[i].Step?
  }

  /** From a lone request on, steps alone spoil the cache. */
  lemma {:induction false} StepsSpoil(cfg: Config, s: Sys, k: nat, r0: Req, bs: nat) returns (ops: seq<Op>)
    requires Lone(s, k, r0, bs) && cfg.maxSeqs >= 1 && cfg.maxBatched >= 1 && HashTokens(r0.parent) != []
    ensures FinishesAndSteps(ops) && !RightCache(EndOf(cfg, World(Counting(), s), ops))
    decreases bs - s.reqs[k].computed
  {
    hide Lone, PagedApply, CacheHolds, HashTokens;
    var op, s' := Step(NoDrafts()), LoneNext(cfg, s);
    LoneStays(cfg, s, k, r0, bs);
    if s.reqs[k].computed + NextSpan(cfg, s.reqs[k]) < bs {
      LoneAdvances(cfg, s, k, r0, bs);
      LoneStays(cfg, s', k, r0, bs);
      var more := StepsSpoil(cfg, s', k, r0, bs);
      RunCons(cfg, World(Counting(), s), op, more);
      ops := [op] + more;
    } else {
      LoneSpoils(cfg, s, k, r0, bs);
      RunCons(cfg, World(Counting(), s), op, []);
      ops := [op] + [];
    }
  }

  lemma RunCons(cfg: Config, w: World, op: Op, ops: seq<Op>)
    ensures EndOf(cfg, w, [op] + ops) == EndOf(cfg, PagedApply(cfg, w, op).0, ops)
  {
    hide PagedApply;
    assert ([op] + ops)[1..] == ops;
  }

  lemma LoneStays(cfg: Config, s: Sys, k: nat, r0: Req, bs: nat)
    requires Lone(s, k, r0, bs) && cfg.maxSeqs >= 1 && cfg.maxBatched >= 1
    ensures k < |s.reqs| && s.reqs[k].computed < bs
    ensures PagedApply(cfg, World(Counting(), s), Step(NoDrafts())).0 == World(Counting(), LoneNext(cfg, s))
  {
    hide Local, PagedStep, BlocksNeededFor;
    LoneSteps(cfg, s, k, r0, bs);
  }

  /** The clearing as operations of the run, and then the steps. */
  lemma {:induction false} ClearAndSpoil(cfg: Config, net: Net, s0: Sys, s: Sys, k: nat, i: nat) returns (ops: seq<Op>)
    requires SysInv(net, s0) && Cleared(s0, s, k, i) && i <= |s0.reqs| && s0.pool.caching
    requires s0.reqs[k].status == Running && s0.reqs[k].parent != Root && cfg.maxSeqs >= 1 && cfg.maxBatched >= 1
    ensures FinishesAndSteps(ops) && !RightCache(EndOf(cfg, World(Counting(), s), ops))
    decreases |s0.reqs| - i
  {
    hide SysInv, Cleared, RightCache, PagedApply, HashTokens, Lone, Release;
    ClearedSize(net, s0, s, k, i);
    if i == |s0.reqs| {
      ClearedIsLone(net, s0, s, k);
      ops := StepsSpoil(cfg, s, k, s0.reqs[k], s0.pool.bs);
    } else {
      ClearOne(s0, s, k, i);
      if i == k {
        ops := ClearAndSpoil(cfg, net, s0, s, k, i + 1);
      } else {
        var more := ClearAndSpoil(cfg, net, s0, Release(s, i), k, i + 1);
        ApplyFinish(cfg, s, i);
        RunCons(cfg, World(Counting(), s), Finish(i), more);
        ops := [Finish(i)] + more;
      }
    }
  }

  lemma ClearedSize(net: Net, s0: Sys, s: Sys, k: nat, i: nat)
    requires SysInv(net, s0) && Cleared(s0, s, k, i)
    ensures k < |s0.reqs| == |s.reqs| && s.pool.bs == s0.pool.bs >= 1
  {
    hide KvInv, Queues, AllShaped;
    KvShape(net, s0);
  }

  lemma ApplyFinish(cfg: Config, s: Sys, i: nat)
    requires s.pool.bs >= 1
    ensures PagedApply(cfg, World(Counting(), s), Finish(i)).0 == World(Counting(), Release(s, i))
  {
    hide Release;
  }

  lemma UnsafeRun(cfg: Config, w: World) returns (ops: seq<Op>)
    requires WorldInv(w) && !SafeToInvalidate(w.s) && cfg.maxSeqs >= 1 && cfg.maxBatched >= 1
    ensures FinishesAndSteps(ops) && !RightCache(EndOf(cfg, w, [Invalidate(Counting())] + ops))
  {
    hide KvInv, RightCache, InvalidateAll, AllShaped, Cleared, PagedRun;
    KvShape(w.net, w.s);
    var k: nat :| k < |w.s.reqs| && w.s.reqs[k].status == Running && w.s.reqs[k].parent != Root;
    var s := InvalidateAll(w.s);
    ClearedStart(w.s, k);
    ops := ClearAndSpoil(cfg, w.net, w.s, s, k, 0);
    RunCons(cfg, w, Invalidate(Counting()), ops);
  }

  lemma ClearedStart(s: Sys, k: nat)
    requires k < |s.reqs| && Queues(s.reqs, s.waiting, s.running)
    ensures Cleared(s, InvalidateAll(s), k, 0)
  {
    hide ResetPool;
  }

  ghost predicate NoInvalidation(ops: seq<Op>) {
    forall i :: 0 <= i < |ops| ==> !ops[i].Invalidate?
  }

  lemma {:induction false} NoInvalidationIsCareful(cfg: Config, w: World, ops: seq<Op>)
    requires NoInvalidation(ops)
    ensures Careful(cfg, w, ops)
    decreases |ops|
  {
    hide PagedApply, SafeToInvalidate;
    if ops != [] {
      NoInvalidationIsCareful(cfg, PagedApply(cfg, w, ops[0]).0, ops[1..]);
    }
  }

  lemma SafeRun(cfg: Config, w: World, net: Net, ops: seq<Op>)
    requires WorldInv(w) && SafeToInvalidate(w.s) && NoInvalidation(ops)
    ensures WorldInv(PagedRun(cfg, w, [Invalidate(net)] + ops).0)
  {
    hide WorldInv, PagedApply, SafeToInvalidate;
    ApplyRefines(cfg, w, Invalidate(net));
    var w' := PagedApply(cfg, w, Invalidate(net)).0;
    NoInvalidationIsCareful(cfg, w', ops);
    assert ([Invalidate(net)] + ops)[1..] == ops;
    RunRefines(cfg, w', ops);
  }

  lemma RightIfSound(w: World)
    requires WorldInv(w)
    ensures RightCache(w)
  {
    hide PoolInv, ReqInv, AllShaped, Queues;
  }

  /** After a bare invalidation under `net` and then `ops`, every cached copy is right. */
  ghost predicate RightAfter(cfg: Config, w: World, net: Net, ops: seq<Op>) {
    RightCache(EndOf(cfg, w, [Invalidate(net)] + ops))
  }

  /** A bare invalidation is harmless for whatever comes after it exactly when it is safe; and
      where it is not, finishing everybody else and stepping is enough to show it. */
  lemma ResetExact(cfg: Config, w: World)
    requires WorldInv(w) && cfg.maxSeqs >= 1 && cfg.maxBatched >= 1
    ensures SafeToInvalidate(w.s) <==> forall net, ops :: NoInvalidation(ops) ==> RightAfter(cfg, w, net, ops)
    ensures SafeToInvalidate(w.s) <==> forall net, ops :: FinishesAndSteps(ops) ==> RightAfter(cfg, w, net, ops)
  {
    hide WorldInv, SafeToInvalidate, RightCache, PagedRun;
    if SafeToInvalidate(w.s) {
      forall net, ops | NoInvalidation(ops)
        ensures RightAfter(cfg, w, net, ops)
      {
        SafeRun(cfg, w, net, ops);
        RightIfSound(EndOf(cfg, w, [Invalidate(net)] + ops));
      }
      assert forall ops :: FinishesAndSteps(ops) ==> NoInvalidation(ops);
    } else {
      var ops := UnsafeRun(cfg, w);
      assert !RightAfter(cfg, w, Counting(), ops) && NoInvalidation(ops);
    }
  }
}

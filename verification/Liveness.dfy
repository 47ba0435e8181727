/** Progress.  Without prefix caching, speculation and held sessions, scheduling never fails
    while there is work, the head of the line is never preempted, and repeated steps drain
    every request. */
module Liveness {
  import opened Kv
  import opened BlockPool
  import opened Requests
  import opened Ownership
  import opened OwnershipSteps
  import opened SpecDecode
  import opened System
  import opened SystemInv
  import opened SchedulePlan
  import opened ScheduleInv
  import opened Engine
  import opened Runs
  import opened Outcomes

  // ----- the setting -----

  ghost predicate Plain(cfg: Config, p: Pool) {
    !p.caching && cfg.draftLimit == 0 && cfg.maxSeqs >= 1 && cfg.maxBatched >= 1
  }

  /** Only running requests hold blocks, and none of the live ones will be held on to. */
  ghost predicate NoneHeld(reqs: seq<Req>) {
    forall k :: 0 <= k < |reqs| ==>
      (reqs[k].status != Running ==> reqs[k].table == []) && (Live(reqs[k]) ==> !reqs[k].hold)
  }

  ghost predicate Quiet(net: Net, cfg: Config, s: Sys) {
    SysInv(net, s) && Plain(cfg, s.pool) && NoneHeld(s.reqs)
  }

  ghost predicate QuietPass(net: Net, cfg: Config, pass: Pass, deferred: seq<nat>) {
    pass.Pass? && PassInv(net, pass, deferred) && Plain(cfg, pass.s.pool) && NoneHeld(pass.s.reqs)
  }

  // ----- how many blocks there are -----

  lemma {:induction false} DistinctBelow(s: seq<nat>, n: nat)
    requires Distinct(s) && forall b: nat :: b in s <==> b < n
    ensures |s| == n
    decreases n
  {
    assert s != [] ==> s[0] in s;
    if n > 0 {
      var top: nat := n - 1;
      WithoutElements(s, top);
      DistinctBelow(Without(s, top), top);
    }
  }

  /** When one table holds every reference, the free list is all the other blocks. */
  lemma FreeAndTable(p: Pool, table: seq<nat>)
    requires PoolInv(p, multiset(table)) && !p.caching
    ensures |p.free| + |table| == |p.ref| && Available(p) == |p.free|
  {
    var held := multiset(table);
    assert forall b :: b in table <==> b in held;
    assert forall b: nat :: !IsCached(p.cache, b);
    forall i, j | 0 <= i < j < |table|
      ensures table[i] != table[j]
    {
      if table[i] == table[j] {
        SharedTwice(table, i, j);
      }
    }
    DistinctConcat(p.free, table);
    DistinctBelow(p.free + table, |p.ref|);
  }

  lemma {:induction false} OthersEmpty(reqs: seq<Req>, k: nat)
    requires k < |reqs| && forall j :: 0 <= j < |reqs| && j != k ==> reqs[j].table == []
    ensures Held(reqs) == multiset(reqs[k].table)
  {
    hide Held;
    HeldSplit(reqs, k);
    HeldEmpty(reqs[..k] + reqs[k + 1..]);
  }

  /** A request alone in the pool can always take another token. */
  lemma FitsAlone(net: Net, s: Sys, k: nat)
    requires KvInv(net, s) && !s.pool.caching && k < |s.reqs|
    requires forall j :: 0 <= j < |s.reqs| && j != k ==> s.reqs[j].table == []
    requires s.pool.bs >= 1 && Shaped(s.pool.bs, |s.pool.ref|, s.reqs[k]) && Live(s.reqs[k])
    ensures Fits(s.pool, s.reqs[k], 1)
  {
    hide Held, Available, CacheHolds, ReqInv, PoolInv, BlocksNeededFor;
    OthersEmpty(s.reqs, k);
    FreeAndTable(s.pool, s.reqs[k].table);
    var r := s.reqs[k];
    FitsMeaning(s.pool, r, 1);
    BlocksNeededForMeaning(r.prompt + r.maxTokens, s.pool.bs, |s.pool.ref|);
  }

  /** A request that cannot take another token has found no free block at all. */
  lemma BlockedMeansFull(net: Net, p: Pool, mem: Memory, rest: multiset<nat>, r: Req)
    requires Local(net, p, mem, rest, r) && p.bs >= 1 && !Fits(p, r, 1)
    ensures Available(p) == 0
  {
    hide Local, Available, BlocksNeededFor;
    LocalShape(net, p, mem, rest, r);
    FitsMeaning(p, r, 1);
    if Available(p) > 0 {
      MulOrder(|r.table| + 1, |r.table| + Available(p), p.bs);
      MulStep(|r.table| + 1, p.bs);
    }
  }

  // ----- what a pass changes -----

  /** The KV bookkeeping a pass may change; what is computed stays. */
  ghost predicate Touched(r: Req, r': Req) {
    && r' == r.(table := r'.table, epoch := r'.epoch, scheduled := r'.scheduled, status := r'.status)
    && r.table <= r'.table && Live(r') == Live(r)
  }

  /** Nothing but reservations happened; with no block available, not even a table grew. */
  ghost predicate Quietly(pass: Pass, pass': Pass) {
    && pass.Pass? && pass'.Pass? && pass'.s.pool.bs == pass.s.pool.bs
    && |pass'.s.reqs| == |pass.s.reqs|
    && (forall k :: 0 <= k < |pass.s.reqs| ==> Touched(pass.s.reqs[k], pass'.s.reqs[k]))
    && Available(pass'.s.pool) <= Available(pass.s.pool)
    && (Available(pass.s.pool) == 0 ==> Stuck(pass.s, pass'.s))
    && pass.s.running <= pass'.s.running && pass.scheduled <= pass'.scheduled
    && (pass'.scheduled == pass.scheduled ==> pass'.s == pass.s.(waiting := pass'.s.waiting) && pass'.budget == pass.budget)
  }

  ghost predicate Stuck(s: Sys, s': Sys) {
    && |s'.reqs| == |s.reqs| && s'.running == s.running
    && forall k :: 0 <= k < |s.reqs| ==> s'.reqs[k].table == s.reqs[k].table && s'.reqs[k].status == s.reqs[k].status
  }

  lemma QuietlyRefl(pass: Pass)
    requires pass.Pass?
    ensures Quietly(pass, pass)
  {
    hide Available;
    assert forall k :: 0 <= k < |pass.s.reqs| ==> Touched(pass.s.reqs[k], pass.s.reqs[k]);
  }

  lemma QuietlyTrans(a: Pass, b: Pass, c: Pass)
    requires Quietly(a, b) && Quietly(b, c)
    ensures Quietly(a, c)
  {
    hide Available;
    assert a.scheduled == c.scheduled ==> |b.scheduled| == |a.scheduled|;
  }

  lemma MaxAllocatablePlain(p: Pool, r: Req, limit: int)
    requires p.bs >= 1 && !p.caching
    ensures MaxAllocatable(p, r, limit).0 == p
  {
  }

  /** One reservation. */
  lemma ReserveQuietly(net: Net, pass: Pass, k: nat, n: nat)
    requires pass.Pass? && k < |pass.s.reqs| && KvInv(net, pass.s) && pass.s.pool.bs >= 1
    requires n > 0 && Fits(pass.s.pool, pass.s.reqs[k], n) && pass.s.reqs[k].computed + n <= |pass.s.reqs[k].tokens|
    requires PublishReady(pass.s.pool, pass.s.reqs[k]) && pass.s.reqs[k].table <= pass.s.reqs[k].table
    ensures var pass' := Reserve(pass, k, pass.s.pool, pass.s.reqs[k], n);
      && Quietly(pass, pass') && pass'.scheduled == pass.scheduled + [k]
      && pass'.s.running == pass.s.running && pass'.s.waiting == pass.s.waiting
      && pass'.s.pool.caching == pass.s.pool.caching
      && pass'.s.reqs[k].status == pass.s.reqs[k].status
      && forall j :: 0 <= j < |pass.s.reqs| && j != k ==> pass'.s.reqs[j] == pass.s.reqs[j]
  {
    hide KvInv, Available, Local, Frame, AllocateForTokens, PublishReady, Rest, Fits;
    var s := pass.s;
    var r, rest := s.reqs[k], Rest(s.reqs, k);
    At(net, s, k);
    ReserveStep(net, s.pool, s.mem, rest, r, n);
    AllocateStep(net, s.pool, s.mem, rest, r, n);
    FrameShape(s.pool, s.mem, AllocateForTokens(s.pool, r, n).pool, s.mem, rest);
  }

  // ----- running requests -----

  lemma ConsiderOneQuietly(net: Net, cfg: Config, propose: Proposer, pass: Pass, deferred: seq<nat>, k: nat)
    requires QuietPass(net, cfg, pass, deferred) && k in pass.s.running && k !in pass.scheduled
    ensures var pass' := ConsiderOne(cfg, propose, pass, k);
      && QuietPass(net, cfg, pass', deferred) && Quietly(pass, pass')
      && (pass'.scheduled == pass.scheduled || pass'.scheduled == pass.scheduled + [k])
      && k < |pass.s.reqs| && pass.s.pool.bs >= 1
      && (!Full(cfg, pass) && Fits(pass.s.pool, pass.s.reqs[k], 1) ==> k in pass'.scheduled)
  {
    hide KvInv, Rest, AllShaped, Queues, Frame, Fits, Available, MaxAllocatable, Reserve, PublishReady, Shaped, Local, NoneHeld;
    var s := pass.s;
    KvShape(net, s);
    QueueMember(s.reqs, deferred + s.waiting, s.running, k);
    ShapedMember(s.pool.bs, |s.pool.ref|, s.reqs, pass.scheduled, k);
    ConsiderOneInv(net, cfg, propose, pass, deferred, k);
    QuietlyRefl(pass);
    var r := s.reqs[k];
    if !Full(cfg, pass) {
      At(net, s, k);
      RunningReady(net, s.pool, s.mem, Rest(s.reqs, k), r);
      TokensStep(net, s.pool, s.mem, Rest(s.reqs, k), r, pass.budget);
      MaxAllocatablePlain(s.pool, r, Min(r.Uncomputed(), pass.budget));
      var n := TokensToSchedule(s.pool, r, pass.budget).1;
      if n == 0 {
        SameReq(s, k);
        LiveHasWork(s.pool.bs, |s.pool.ref|, r);
      } else {
        ReserveQuietly(net, pass, k, n);
        NoneHeldKeeps(pass, Reserve(pass, k, s.pool, r, n));
        assert (pass.scheduled + [k])[|pass.scheduled|] == k;
      }
    }
  }

  lemma SameReq(s: Sys, k: nat)
    requires k < |s.reqs|
    ensures SetReq(s, k, s.pool, s.reqs[k]) == s
  {
    assert s.reqs[k := s.reqs[k]] == s.reqs;
  }

  lemma LiveHasWork(bs: nat, blocks: nat, r: Req)
    requires bs >= 1 && Shaped(bs, blocks, r) && Live(r)
    ensures r.computed < |r.tokens| && r.Uncomputed() > 0
  {
    hide BlocksNeededFor;
  }

  lemma NoneHeldKeeps(pass: Pass, pass': Pass)
    requires Quietly(pass, pass') && NoneHeld(pass.s.reqs)
    requires forall k :: 0 <= k < |pass.s.reqs| ==> pass'.s.reqs[k] == pass.s.reqs[k] || pass'.s.reqs[k].status == Running
    ensures NoneHeld(pass'.s.reqs)
  {
    hide Available;
  }

  lemma {:induction false} ConsiderRunningQuietly(net: Net, cfg: Config, propose: Proposer, pass: Pass, deferred: seq<nat>, ids: seq<nat>)
    requires QuietPass(net, cfg, pass, deferred) && Distinct(ids)
    requires forall k :: k in ids ==> k in pass.s.running && k !in pass.scheduled
    ensures var pass' := ConsiderRunning(cfg, propose, pass, ids);
      QuietPass(net, cfg, pass', deferred) && Quietly(pass, pass')
    decreases |ids|
  {
    hide PassInv, ConsiderOne, NoneHeld, Fits;
    if ids == [] {
      QuietlyRefl(pass);
    } else {
      var k := ids[0];
      assert k in ids && forall j :: j in ids[1..] ==> j in ids && j != k;
      ConsiderOneQuietly(net, cfg, propose, pass, deferred, k);
      var pass1 := ConsiderOne(cfg, propose, pass, k);
      assert forall j :: j in pass.s.running ==> j in pass1.s.running;
      ConsiderRunningQuietly(net, cfg, propose, pass1, deferred, ids[1..]);
      QuietlyTrans(pass, pass1, ConsiderRunning(cfg, propose, pass1, ids[1..]));
    }
  }

  // ----- waiting requests -----

  /** A waiting request holds nothing, so it is admitted only if a block is available. */
  lemma AdmissionNeedsBlock(net: Net, p: Pool, mem: Memory, rest: multiset<nat>, r: Req, n: nat)
    requires Local(net, p, mem, rest, r) && p.bs >= 1 && r.table == [] && n > 0 && Fits(p, r, n)
    ensures Available(p) > 0
  {
    hide Local, Available, BlocksNeededFor;
    LocalShape(net, p, mem, rest, r);
    FitsMeaning(p, r, n);
    MulOrder(0, Available(p), p.bs);
  }

  lemma ReadmitPlain(p: Pool, r: Req)
    requires p.bs >= 1 && !p.caching
    ensures Readmit(p, r) == (p, r)
  {
    hide AttachCachedPrefix;
  }

  lemma AdmitQuietly(pass: Pass, k: nat, mid: Pass)
    requires Quietly(pass, mid) && k < |pass.s.reqs| && pass.s.reqs[k].status == Waiting
    requires mid.s.running == pass.s.running && mid.scheduled == pass.scheduled + [k] && Available(pass.s.pool) > 0
    ensures Quietly(pass, mid.(s := Activated(mid.s, k)))
  {
    hide Available;
  }

  lemma ConsiderWaitingQuietly(net: Net, cfg: Config, pass: Pass, deferred: seq<nat>, k: nat)
    requires QuietPass(net, cfg, pass, deferred + [k]) && pass.budget > 0
    ensures k < |pass.s.reqs| && pass.s.pool.bs >= 1
    ensures var (pass', taken) := ConsiderWaiting(pass, k);
      && QuietPass(net, cfg, pass', if taken then deferred else deferred + [k]) && Quietly(pass, pass')
      && pass'.s.waiting == pass.s.waiting
      && pass'.scheduled == (if taken then pass.scheduled + [k] else pass.scheduled)
      && pass'.s.running == (if taken then pass.s.running + [k] else pass.s.running)
      && (Fits(pass.s.pool, pass.s.reqs[k], 1) ==> taken)
  {
    hide KvInv, Rest, AllShaped, Queues, Frame, Fits, Available, MaxAllocatable, Reserve, PublishReady, Shaped, Local, NoneHeld, DecrefAll;
    var s := pass.s;
    KvShape(net, s);
    WaitingFacts(net, pass, deferred, k);
    ConsiderWaitingInv(net, pass, deferred, k);
    QuietlyRefl(pass);
    var r, rest := s.reqs[k], Rest(s.reqs, k);
    HoldsNothing(s.reqs, k);
    At(net, s, k);
    NoTableNothingComputed(net, s.pool, s.mem, rest, r);
    ReadmitPlain(s.pool, r);
    TokensStep(net, s.pool, s.mem, rest, r, pass.budget);
    MaxAllocatablePlain(s.pool, r, Min(r.Uncomputed(), pass.budget));
    var n := TokensToSchedule(s.pool, r, pass.budget).1;
    if n == 0 {
      SameReq(s, k);
      LiveHasWork(s.pool.bs, |s.pool.ref|, r);
    } else {
      var mid := Reserve(pass, k, s.pool, r, n);
      ReserveQuietly(net, pass, k, n);
      AdmissionNeedsBlock(net, s.pool, s.mem, rest, r, n);
      AdmitQuietly(pass, k, mid);
      NoneHeldKeeps(pass, mid.(s := Activated(mid.s, k)));
    }
  }

  lemma HoldsNothing(reqs: seq<Req>, k: nat)
    requires NoneHeld(reqs) && k < |reqs| && reqs[k].status == Waiting
    ensures reqs[k].table == []
  {
  }

  lemma {:induction false} ScheduleWaitingQuietly(net: Net, cfg: Config, pass: Pass, deferred: seq<nat>)
    requires QuietPass(net, cfg, pass, deferred)
    ensures var pass' := ScheduleWaiting(cfg, pass, deferred);
      && QuietPass(net, cfg, pass', []) && Quietly(pass, pass')
      && (pass'.scheduled == pass.scheduled ==> pass'.s.waiting == deferred + pass.s.waiting)
    ensures |pass.s.waiting| > 0 && !Full(cfg, pass) ==>
      var k := pass.s.waiting[0];
      && k < |pass.s.reqs| && pass.s.pool.bs >= 1
      && (Fits(pass.s.pool, pass.s.reqs[k], 1) ==>
            var pass' := ScheduleWaiting(cfg, pass, deferred);
            k in pass'.scheduled && pass.s.running + [k] <= pass'.s.running)
    decreases |pass.s.waiting|
  {
    hide PassInv, ConsiderWaiting, NoneHeld, Fits, Available, Touched, Stuck;
    if pass.s.waiting == [] || Full(cfg, pass) {
      PutBack(net, pass, deferred);
      QuietlyRefl(pass);
      PutBackQuietly(pass, deferred + pass.s.waiting);
    } else {
      WaitingInRange(net, pass, deferred);
      var k := pass.s.waiting[0];
      var popped := pass.(s := pass.s.(waiting := pass.s.waiting[1..]));
      PopInv(net, pass, deferred);
      ConsiderWaitingQuietly(net, cfg, popped, deferred, k);
      var (pass', taken) := ConsiderWaiting(popped, k);
      var later := if taken then deferred else deferred + [k];
      ScheduleWaitingQuietly(net, cfg, pass', later);
      var last := ScheduleWaiting(cfg, pass', later);
      QuietlyTrans(popped, pass', last);
      PutBackQuietly(pass, pass.s.waiting[1..]);
      QuietlyTrans(pass, popped, last);
      assert taken ==> (pass.scheduled + [k])[|pass.scheduled|] == k && k in pass.scheduled + [k];
      assert (deferred + [k]) + pass.s.waiting[1..] == deferred + pass.s.waiting;
    }
  }

  lemma PutBackQuietly(pass: Pass, waiting: seq<nat>)
    requires pass.Pass?
    ensures Quietly(pass, pass.(s := pass.s.(waiting := waiting)))
  {
    hide Available;
    QuietlyRefl(pass);
  }

  // ----- a whole pass -----

  /** First in line: the oldest running request, or the first waiting one. */
  ghost predicate IsHead(s: Sys, h: nat) {
    if s.running != [] then h == s.running[0] else s.waiting != [] && h == s.waiting[0]
  }

  lemma StartPass(net: Net, cfg: Config, s: Sys)
    requires Quiet(net, cfg, s)
    ensures QuietPass(net, cfg, Pass(s, [], cfg.maxBatched), []) && Distinct(s.running)
  {
    hide KvInv, AllShaped, NoneHeld;
    assert [] + s.waiting == s.waiting;
  }

  /** The head is served whenever it can take a token; a pass that serves nobody changes
      nothing at all. */
  lemma PassServesHead(net: Net, cfg: Config, propose: Proposer, s: Sys, h: nat)
    requires Quiet(net, cfg, s) && IsHead(s, h)
    ensures h < |s.reqs| && s.pool.bs >= 1 && Live(s.reqs[h])
    ensures var pass := SchedulePass(cfg, propose, s);
      && QuietPass(net, cfg, pass, []) && Quietly(Pass(s, [], cfg.maxBatched), pass)
      && (Fits(s.pool, s.reqs[h], 1) ==> h in pass.scheduled)
      && (s.running == [] && Fits(s.pool, s.reqs[h], 1) ==> pass.s.running != [] && pass.s.running[0] == h)
      && (pass.scheduled == [] ==> pass.s == s)
  {
    hide KvInv, AllShaped, NoneHeld, Queues, ConsiderRunning, ScheduleWaiting, Fits, Available, Touched, Stuck, ConsiderOne;
    var start := Pass(s, [], cfg.maxBatched);
    StartPass(net, cfg, s);
    HeadLive(net, s, h);
    ConsiderRunningQuietly(net, cfg, propose, start, [], s.running);
    var mid := ConsiderRunning(cfg, propose, start, s.running);
    ConsiderRunningInv(net, cfg, propose, start, [], s.running);
    ScheduleWaitingQuietly(net, cfg, mid, []);
    QuietlyTrans(start, mid, ScheduleWaiting(cfg, mid, []));
    assert [] + s.waiting == s.waiting;
    if s.running != [] {
      ServesFirstRunning(net, cfg, propose, start, h);
    } else {
      assert mid == start by { ConsiderNobody(cfg, propose, start); }
    }
  }

  lemma ConsiderNobody(cfg: Config, propose: Proposer, pass: Pass)
    ensures ConsiderRunning(cfg, propose, pass, []) == pass
  {
  }

  lemma HeadLive(net: Net, s: Sys, h: nat)
    requires SysInv(net, s) && IsHead(s, h)
    ensures h < |s.reqs| && s.pool.bs >= 1 && Live(s.reqs[h]) && Shaped(s.pool.bs, |s.pool.ref|, s.reqs[h])
  {
    hide KvInv, BlocksNeededFor;
    KvShape(net, s);
    assert h in (if s.running != [] then s.running else s.waiting);
    ShapedMember(s.pool.bs, |s.pool.ref|, s.reqs, [], h);
  }

  lemma ServesFirstRunning(net: Net, cfg: Config, propose: Proposer, start: Pass, h: nat)
    requires QuietPass(net, cfg, start, []) && start.scheduled == [] && start.budget == cfg.maxBatched
    requires start.s.running != [] && h == start.s.running[0] && Distinct(start.s.running)
    ensures h < |start.s.reqs| && start.s.pool.bs >= 1
    ensures var last := ConsiderRunning(cfg, propose, start, start.s.running);
      last.Pass? && (Fits(start.s.pool, start.s.reqs[h], 1) ==> h in last.scheduled)
  {
    hide QuietPass, Quietly, ConsiderOne, Fits, Distinct, Full;
    RoomAtStart(net, cfg, start);
    var ids := start.s.running;
    TailApart(ids);
    ConsiderOneQuietly(net, cfg, propose, start, [], h);
    var pass1 := ConsiderOne(cfg, propose, start, h);
    ReservedOnlyGrow(start, pass1);
    ConsiderRunningQuietly(net, cfg, propose, pass1, [], ids[1..]);
    ReservedOnlyGrow(pass1, ConsiderRunning(cfg, propose, pass1, ids[1..]));
  }

  lemma TailApart(ids: seq<nat>)
    requires ids != [] && Distinct(ids)
    ensures Distinct(ids[1..]) && ids[0] in ids
    ensures forall j :: j in ids[1..] ==> j in ids && j != ids[0]
  {
  }

  lemma ReservedOnlyGrow(a: Pass, b: Pass)
    requires Quietly(a, b)
    ensures a.Pass? && b.Pass?
    ensures forall j :: j in a.scheduled ==> j in b.scheduled
    ensures forall j :: j in a.s.running ==> j in b.s.running
  {
    hide Available, Touched, Stuck;
  }

  lemma RoomAtStart(net: Net, cfg: Config, pass: Pass)
    requires QuietPass(net, cfg, pass, [])
    ensures pass.Pass? && (pass.scheduled == [] && pass.budget == cfg.maxBatched ==> !Full(cfg, pass))
  {
    hide PassInv, NoneHeld;
  }

  // ----- the scheduling loop -----

  /** What is still to be said is untouched. */
  ghost predicate SameWork(r: Req, r': Req) {
    && r'.tokens == r.tokens && r'.prompt == r.prompt && r'.maxTokens == r.maxTokens && r'.draft == r.draft
    && Live(r') == Live(r)
  }

  /** Either exactly where it was, or no longer running. */
  ghost predicate Tighter(r: Req, r': Req) {
    (r'.table == r.table && r'.computed == r.computed && r'.status == r.status) || r'.status != Running
  }

  ghost predicate AllSameWork(s: Sys, s': Sys) {
    s'.pool.bs == s.pool.bs && |s'.reqs| == |s.reqs| && forall k :: 0 <= k < |s.reqs| ==> SameWork(s.reqs[k], s'.reqs[k])
  }

  ghost predicate OthersTighter(s: Sys, s': Sys, h: nat) {
    |s'.reqs| == |s.reqs| && forall k :: 0 <= k < |s.reqs| && k != h ==> Tighter(s.reqs[k], s'.reqs[k])
  }

  /** The head keeps its place and what it has computed; it is served, or else nobody gained
      a block. */
  ghost predicate Advanced(s: Sys, s': Sys, ids: seq<nat>, h: nat) {
    && AllSameWork(s, s') && h < |s.reqs|
    && s'.running != [] && s'.running[0] == h && s'.reqs[h].computed == s.reqs[h].computed
    && (h in ids || OthersTighter(s, s', h))
  }

  lemma AdvancedTrans(a: Sys, b: Sys, c: Sys, ids: seq<nat>, h: nat)
    requires AllSameWork(a, b) && OthersTighter(a, b, h) && h < |a.reqs| && b.reqs[h].computed == a.reqs[h].computed
    requires Advanced(b, c, ids, h)
    ensures Advanced(a, c, ids, h)
  {
  }

  lemma PassWork(pass: Pass, pass': Pass)
    requires Quietly(pass, pass')
    ensures AllSameWork(pass.s, pass'.s)
    ensures Available(pass.s.pool) == 0 ==> forall h: nat :: OthersTighter(pass.s, pass'.s, h)
    ensures forall k :: 0 <= k < |pass.s.reqs| ==> pass'.s.reqs[k].computed == pass.s.reqs[k].computed
    ensures pass.s.running <= pass'.s.running
  {
    hide Available;
  }

  /** With at most one request running, the head is alone in the pool. */
  lemma HeadAlone(net: Net, cfg: Config, s: Sys, h: nat)
    requires Quiet(net, cfg, s) && IsHead(s, h) && |s.running| <= 1
    ensures h < |s.reqs| && s.pool.bs >= 1 && Fits(s.pool, s.reqs[h], 1)
  {
    hide KvInv, Fits, Shaped;
    HeadLive(net, s, h);
    assert s.running != [] ==> s.running == [s.running[0]];
    assert forall j :: j in s.running ==> j == h;
    FitsAlone(net, s, h);
  }

  lemma HeadFull(net: Net, s: Sys, h: nat)
    requires KvInv(net, s) && h < |s.reqs| && s.pool.bs >= 1 && !Fits(s.pool, s.reqs[h], 1)
    ensures Available(s.pool) == 0
  {
    hide KvInv, Fits, Available, Local, Rest;
    At(net, s, h);
    BlockedMeansFull(net, s.pool, s.mem, Rest(s.reqs, h), s.reqs[h]);
  }

  lemma PassAdvances(net: Net, cfg: Config, propose: Proposer, s: Sys, h: nat)
    requires Quiet(net, cfg, s) && IsHead(s, h)
    ensures var pass := SchedulePass(cfg, propose, s);
      && QuietPass(net, cfg, pass, [])
      && (pass.scheduled == [] ==> pass.s == s && |s.running| >= 2)
      && (pass.scheduled != [] ==> Advanced(s, pass.s, pass.scheduled, h))
  {
    hide KvInv, PassInv, NoneHeld, Queues, AllShaped, SchedulePass, Fits, Available, Plain, Quietly;
    PassServesHead(net, cfg, propose, s, h);
    var pass := SchedulePass(cfg, propose, s);
    PassWork(Pass(s, [], cfg.maxBatched), pass);
    if |s.running| <= 1 {
      HeadAlone(net, cfg, s, h);
    }
    if !Fits(s.pool, s.reqs[h], 1) {
      HeadFull(net, s, h);
    }
  }

  lemma PreemptQuiet(net: Net, cfg: Config, s: Sys, h: nat)
    requires Quiet(net, cfg, s) && |s.running| >= 2 && IsHead(s, h)
    ensures var s' := Preempt(s);
      && Quiet(net, cfg, s') && IsHead(s', h) && |s'.running| == |s.running| - 1
      && AllSameWork(s, s') && OthersTighter(s, s', h) && h < |s.reqs| && s'.reqs[h].computed == s.reqs[h].computed
  {
    hide KvInv, AllShaped, Queues, DecrefAll, Shaped;
    PreemptInv(net, s);
    var k := s.running[|s.running| - 1];
    PreemptTarget(net, s, k);
    HeadLive(net, s, h);
    StripNothing(s.reqs[k]);
    QueuesApart(s, k);
    DecrefAllCaching(s.pool, s.reqs[k].table);
  }

  lemma QueuesApart(s: Sys, k: nat)
    requires Queues(s.reqs, s.waiting, s.running) && |s.running| >= 2 && k == s.running[|s.running| - 1]
    ensures s.running[0] != k
  {
  }

  lemma {:induction false} DecrefAllCaching(p: Pool, table: seq<nat>)
    ensures DecrefAll(p, table).caching == p.caching && DecrefAll(p, table).bs == p.bs
    decreases |table|
  {
    if table != [] {
      DecrefAllCaching(Decref(p, table[0]), table[1..]);
    }
  }

  /** What `schedule` returned, ready to run. */
  ghost predicate QuietStep(net: Net, cfg: Config, s: Sys, ids: seq<nat>) {
    StepInv(net, s, ids) && Plain(cfg, s.pool) && NoneHeld(s.reqs)
  }

  /** `schedule` never fails while there is work: it serves a batch, and the head of the line
      keeps its place. */
  lemma {:induction false} ScheduleAdvances(net: Net, cfg: Config, propose: Proposer, s: Sys, h: nat, bound: nat)
    requires Quiet(net, cfg, s) && IsHead(s, h) && bound > |s.running|
    ensures var outcome := ScheduleLoop(cfg, propose, s, bound);
      && outcome.Scheduled? && outcome.ids != []
      && QuietStep(net, cfg, outcome.s, outcome.ids) && Advanced(s, outcome.s, outcome.ids, h)
    decreases bound
  {
    hide KvInv, AllShaped, NoneHeld, SchedulePass, Preempt, Queues, Advanced, AllSameWork, OthersTighter, IsHead, Plain;
    PassAdvances(net, cfg, propose, s, h);
    var pass := SchedulePass(cfg, propose, s);
    assert [] + pass.s.waiting == pass.s.waiting;
    if pass.scheduled == [] {
      PreemptQuiet(net, cfg, s, h);
      ScheduleAdvances(net, cfg, propose, Preempt(s), h, bound - 1);
      var outcome := ScheduleLoop(cfg, propose, Preempt(s), bound - 1);
      AdvancedTrans(s, Preempt(s), outcome.s, outcome.ids, h);
    }
  }

  // ----- the batch -----

  /** A completed history: one more token, still running or retired. */
  ghost predicate Spoke(r: Req, r': Req) {
    && |r'.tokens| == |r.tokens| + 1 && r'.prompt == r.prompt && r'.maxTokens == r.maxTokens
    && (r'.status == Running || (r'.status == Finished && r'.table == [])) && r'.hold == r.hold
  }

  /** A chunk of a history: further along, and nothing else. */
  ghost predicate Silent(r: Req, r': Req) {
    r' == r.(computed := r.computed + r.scheduled, scheduled := 0, published := r'.published, parent := r'.parent)
  }

  ghost predicate Result(s: Sys, s': Sys, ids: seq<nat>) {
    && |s'.reqs| == |s.reqs| && s'.pool.caching == s.pool.caching && s'.pool.bs == s.pool.bs
    && (forall k :: 0 <= k < |s.reqs| && k !in ids ==> s'.reqs[k] == s.reqs[k])
    && (forall k :: 0 <= k < |s.reqs| && k in ids ==> Spoke(s.reqs[k], s'.reqs[k]) || Silent(s.reqs[k], s'.reqs[k]))
    && (SomeSpoke(s, s', ids) || (s'.running == s.running && s'.waiting == s.waiting))
  }

  ghost predicate SomeSpoke(s: Sys, s': Sys, ids: seq<nat>) {
    exists k: nat :: k in ids && k < |s.reqs| && k < |s'.reqs| && Spoke(s.reqs[k], s'.reqs[k])
  }

  lemma PostOneResult(cfg: Config, s: Sys, k: nat, token: Option<Token>)
    requires k < |s.reqs| && s.pool.bs >= 1 && !s.pool.caching
    requires s.reqs[k].status == Running && !s.reqs[k].hold
    ensures Result(s, PostOne(cfg, s, k, token), [k]) && SameOthers(s, PostOne(cfg, s, k, token), k)
  {
    hide DecrefAll, Without, FinishReason;
    var s' := PostOne(cfg, s, k, token);
    DecrefAllCaching(s.pool, s.reqs[k].table);
    if token.Some? {
      assert k in [k] && Spoke(s.reqs[k], s'.reqs[k]);
    }
  }

  lemma ResultCons(s: Sys, s1: Sys, s2: Sys, ids: seq<nat>)
    requires ids != [] && ids[0] !in ids[1..] && Result(s, s1, [ids[0]]) && Result(s1, s2, ids[1..])
    ensures Result(s, s2, ids)
  {
    hide Spoke, Silent;
    assert forall k :: k in ids <==> k == ids[0] || k in ids[1..];
    if SomeSpoke(s, s1, [ids[0]]) {
      assert ids[0] in ids && s2.reqs[ids[0]] == s1.reqs[ids[0]];
      assert SomeSpoke(s, s2, ids);
    } else if SomeSpoke(s1, s2, ids[1..]) {
      var k: nat :| k in ids[1..] && k < |s1.reqs| && Spoke(s1.reqs[k], s2.reqs[k]);
      assert k in ids && s1.reqs[k] == s.reqs[k];
    }
  }

  lemma {:induction false} PostAllResult(net: Net, cfg: Config, s: Sys, ids: seq<nat>)
    requires StepInv(net, s, ids) && !s.pool.caching && NoneHeld(s.reqs)
    requires forall k :: k in ids ==> Ready(net, s, k) && s.reqs[k].draft == 0
    ensures Result(s, PostAll(cfg, s, ids, MapRefTokens(net, s, ids)).0, ids)
    decreases |ids|
  {
    hide KvInv, AllShaped, Queues, Ready, PostOne, Result, Planned, NoneHeld;
    KvShape(net, s);
    if ids == [] {
      ResultNothing(s);
    } else {
      var k := ids[0];
      assert ids + [] == ids && ids[1..] + [] == ids[1..];
      HeadApart(s.pool.bs, |s.pool.ref|, s.reqs, ids, []);
      assert k in ids && forall j :: j in ids[1..] ==> j in ids;
      PlannedRunning(s, k);
      var token := RefToken(net, s, k);
      PostOneInv(net, cfg, s, ids[1..], k, token);
      PostOneResult(cfg, s, k, token);
      var s1 := PostOne(cfg, s, k, token);
      ResultNoneHeld(s, s1, [k]);
      MapRefSame(net, s, s1, ids[1..]);
      ReadyOthers(net, s, s1, k);
      PostAllResult(net, cfg, s1, ids[1..]);
      ResultCons(s, s1, PostAll(cfg, s1, ids[1..], MapRefTokens(net, s1, ids[1..])).0, ids);
    }
  }

  lemma PlannedRunning(s: Sys, k: nat)
    requires k < |s.reqs| && s.pool.bs >= 1 && Planned(s.pool.bs, |s.pool.ref|, s.reqs[k]) && NoneHeld(s.reqs)
    ensures s.reqs[k].status == Running && !s.reqs[k].hold
  {
    hide BlocksNeededFor;
  }

  lemma ResultNothing(s: Sys)
    ensures Result(s, s, [])
  {
  }

  lemma ResultNoneHeld(s: Sys, s': Sys, ids: seq<nat>)
    requires Result(s, s', ids) && NoneHeld(s.reqs)
    requires forall k :: k in ids && k < |s.reqs| ==> s.reqs[k].status == Running
    ensures NoneHeld(s'.reqs) && s'.pool.caching == s.pool.caching
  {
  }

  lemma {:induction false} NoDrafts(s: Sys, ids: seq<nat>)
    requires forall k :: k in ids && k < |s.reqs| ==> s.reqs[k].draft == 0
    ensures SpecIds(s, ids) == [] && NormalIds(s, ids) == ids
  {
    if ids != [] {
      assert ids[0] in ids && forall k :: k in ids[1..] ==> k in ids;
      NoDrafts(s, ids[1..]);
    }
  }

  lemma BatchResult(net: Net, cfg: Config, s: Sys, ids: seq<nat>)
    requires QuietStep(net, cfg, s, ids) && forall k :: k in ids && k < |s.reqs| ==> s.reqs[k].draft == 0
    ensures Result(s, PagedBatch(net, cfg, s, ids).0, ids) && Quiet(net, cfg, PagedBatch(net, cfg, s, ids).0)
  {
    hide KvInv, AllShaped, Queues, RunAll, PostAll, MapTokens, MapRefTokens, Ready, NoneHeld, Planned, SysInv, Result;
    KvShape(net, s);
    NoDrafts(s, ids);
    AllMembers(s, ids);
    RunAllInv(net, s, ids, ids, {});
    var s3 := RunAll(net, s, ids);
    MapsAgree(net, s3, ids);
    PostAllResult(net, cfg, s3, ids);
    BatchRefines(net, cfg, s, ids);
    var s' := PostAll(cfg, s3, ids, MapRefTokens(net, s3, ids)).0;
    NothingToCommit(net, cfg, s);
    assert PagedBatch(net, cfg, s, ids).0 == s';
    ResultNoneHeld(s3, s', ids);
    ResultMem(s, s3, s', ids);
  }

  lemma AllMembers(s: Sys, ids: seq<nat>)
    requires s.pool.bs >= 1 && AllShaped(s.pool.bs, |s.pool.ref|, s.reqs, ids)
    ensures forall k :: k in ids ==> k < |s.reqs| && s.reqs[k].status == Running
  {
    hide BlocksNeededFor;
  }

  lemma NothingToCommit(net: Net, cfg: Config, s: Sys)
    ensures RunAll(net, s, []) == s && CommitAll(cfg, s, [], MapChoices(net, s, [])) == (s, [])
  {
  }

  lemma ResultMem(s: Sys, s3: Sys, s': Sys, ids: seq<nat>)
    requires s3 == s.(mem := s3.mem) && Result(s3, s', ids)
    ensures Result(s, s', ids)
  {
    hide Spoke, Silent;
    if SomeSpoke(s3, s', ids) {
      var k: nat :| k in ids && k < |s3.reqs| && k < |s'.reqs| && Spoke(s3.reqs[k], s'.reqs[k]);
      assert Spoke(s.reqs[k], s'.reqs[k]);
    }
  }

  // ----- the measure -----

  /** Tokens a request may still emit. */
  function Left(r: Req): nat {
    if Live(r) && r.maxTokens + r.prompt > |r.tokens| then r.maxTokens + r.prompt - |r.tokens| else 0
  }

  /** Room in the blocks a running request already holds. */
  function Room(bs: nat, r: Req): nat {
    if r.status == Running && |r.table| * bs > r.computed then |r.table| * bs - r.computed else 0
  }

  function TotalLeft(reqs: seq<Req>): nat {
    if reqs == [] then 0 else TotalLeft(reqs[..|reqs| - 1]) + Left(reqs[|reqs| - 1])
  }

  /** Everybody's room but `h`'s. */
  function OthersRoom(bs: nat, reqs: seq<Req>, h: nat): nat {
    if reqs == [] then 0
    else OthersRoom(bs, reqs[..|reqs| - 1], h) + (if |reqs| - 1 == h then 0 else Room(bs, reqs[|reqs| - 1]))
  }

  function Head(s: Sys): nat {
    if s.running != [] then s.running[0] else if s.waiting != [] then s.waiting[0] else 0
  }

  /** What the first in line has not computed yet. */
  function HeadLeft(s: Sys): nat {
    if Head(s) < |s.reqs| then s.reqs[Head(s)].Uncomputed() else 0
  }

  lemma {:induction false} LeftDrops(a: seq<Req>, b: seq<Req>)
    requires |b| == |a| && forall k :: 0 <= k < |a| ==> Left(b[k]) <= Left(a[k])
    ensures TotalLeft(b) <= TotalLeft(a)
    ensures (exists k :: 0 <= k < |a| && Left(b[k]) < Left(a[k])) ==> TotalLeft(b) < TotalLeft(a)
  {
    hide Left;
    if a != [] {
      var a', b' := a[..|a| - 1], b[..|b| - 1];
      assert forall k :: 0 <= k < |a'| ==> Left(b'[k]) <= Left(a'[k]);
      LeftDrops(a', b');
      if k :| 0 <= k < |a| && Left(b[k]) < Left(a[k]) {
        assert k < |a'| ==> Left(b'[k]) < Left(a'[k]);
      }
    }
  }

  lemma {:induction false} RoomDrops(bs: nat, a: seq<Req>, b: seq<Req>, h: nat)
    requires |b| == |a| && forall k :: 0 <= k < |a| && k != h ==> Room(bs, b[k]) <= Room(bs, a[k])
    ensures OthersRoom(bs, b, h) <= OthersRoom(bs, a, h)
    ensures (exists k :: 0 <= k < |a| && k != h && Room(bs, b[k]) < Room(bs, a[k])) ==> OthersRoom(bs, b, h) < OthersRoom(bs, a, h)
  {
    hide Room;
    if a != [] {
      var a', b' := a[..|a| - 1], b[..|b| - 1];
      assert forall k :: 0 <= k < |a'| && k != h ==> Room(bs, b'[k]) <= Room(bs, a'[k]);
      RoomDrops(bs, a', b', h);
      if k :| 0 <= k < |a| && k != h && Room(bs, b[k]) < Room(bs, a[k]) {
        assert k < |a'| ==> Room(bs, b'[k]) < Room(bs, a'[k]);
      }
    }
  }

  /** One request over a whole step, by what became of it. */
  lemma LeftOverStep(r: Req, mid: Req, r': Req)
    requires SameWork(r, mid) && (r' == mid || Spoke(mid, r') || Silent(mid, r'))
    requires Live(r) ==> Left(r) >= 1
    requires Spoke(mid, r') ==> Live(mid)
    ensures Left(r') <= Left(r) && (Spoke(mid, r') ==> Left(r') < Left(r))
    ensures Left(mid) == Left(r)
  {
  }

  lemma RoomOverStep(bs: nat, r: Req, mid: Req, r': Req, planned: bool)
    requires Tighter(r, mid) && (if planned then Silent(mid, r') && Covered(bs, mid) && mid.status == Running else r' == mid)
    ensures Room(bs, r') <= Room(bs, r) && (planned ==> Room(bs, r') < Room(bs, r))
  {
  }

  /** Lexicographic: outputs left, then what the head has not computed, then the room in the
      others' last blocks. */
  ghost predicate Closer(s: Sys, s': Sys) {
    || TotalLeft(s'.reqs) < TotalLeft(s.reqs)
    || (TotalLeft(s'.reqs) == TotalLeft(s.reqs) && HeadLeft(s') < HeadLeft(s))
    || (TotalLeft(s'.reqs) == TotalLeft(s.reqs) && HeadLeft(s') == HeadLeft(s)
        && OthersRoom(s'.pool.bs, s'.reqs, Head(s')) < OthersRoom(s.pool.bs, s.reqs, Head(s)))
  }

  /** The records of one step: `s` before it, `mid` as scheduled, `s'` after the batch. */
  ghost predicate Stages(s: Sys, mid: Sys, s': Sys, ids: seq<nat>, h: nat) {
    && Advanced(s, mid, ids, h) && Result(mid, s', ids) && ids != [] && h == Head(s)
    && mid.pool.bs == s.pool.bs == s'.pool.bs
    && (forall k :: 0 <= k < |s.reqs| && Live(s.reqs[k]) ==> Left(s.reqs[k]) >= 1)
    && (forall k :: k in ids ==> k < |s.reqs| && Covered(s.pool.bs, mid.reqs[k]) && mid.reqs[k].status == Running)
  }

  lemma SpeakingIsCloser(s: Sys, mid: Sys, s': Sys, ids: seq<nat>, h: nat)
    requires Stages(s, mid, s', ids, h)
    ensures TotalLeft(s'.reqs) <= TotalLeft(s.reqs) && (SomeSpoke(mid, s', ids) ==> TotalLeft(s'.reqs) < TotalLeft(s.reqs))
  {
    hide Left, Covered, SameWork, Spoke, Silent, OthersTighter;
    forall k | 0 <= k < |s.reqs|
      ensures Left(s'.reqs[k]) <= Left(s.reqs[k])
      ensures k in ids && Spoke(mid.reqs[k], s'.reqs[k]) ==> Left(s'.reqs[k]) < Left(s.reqs[k])
    {
      SpokenOnlyIfScheduled(mid.reqs[k], s'.reqs[k]);
      LeftOverStep(s.reqs[k], mid.reqs[k], s'.reqs[k]);
    }
    LeftDrops(s.reqs, s'.reqs);
  }

  lemma SpokenOnlyIfScheduled(mid: Req, r': Req)
    ensures mid == r' ==> !Spoke(mid, r')
    ensures mid.status == Running ==> Live(mid)
  {
  }

  lemma SilenceIsCloser(s: Sys, mid: Sys, s': Sys, ids: seq<nat>, h: nat)
    requires Stages(s, mid, s', ids, h) && !SomeSpoke(mid, s', ids)
    ensures Head(s') == h
    ensures h in ids ==> HeadLeft(s') < HeadLeft(s)
    ensures h !in ids ==> HeadLeft(s') == HeadLeft(s) && OthersRoom(s'.pool.bs, s'.reqs, h) < OthersRoom(s.pool.bs, s.reqs, h)
  {
    hide Left, Room, Spoke, Tighter, TotalLeft;
    var bs := s.pool.bs;
    forall k | 0 <= k < |s.reqs| && k in ids
      ensures Silent(mid.reqs[k], s'.reqs[k])
    {
      assert !Spoke(mid.reqs[k], s'.reqs[k]);
    }
    if h !in ids {
      forall k | 0 <= k < |s.reqs| && k != h
        ensures Room(bs, s'.reqs[k]) <= Room(bs, s.reqs[k]) && (k in ids ==> Room(bs, s'.reqs[k]) < Room(bs, s.reqs[k]))
      {
        RoomOverStep(bs, s.reqs[k], mid.reqs[k], s'.reqs[k], k in ids);
      }
      var k := ids[0];
      assert k in ids && Room(bs, s'.reqs[k]) < Room(bs, s.reqs[k]);
      RoomDrops(bs, s.reqs, s'.reqs, h);
    }
  }

  lemma LiveHasRoom(net: Net, s: Sys)
    requires SysInv(net, s)
    ensures forall k :: 0 <= k < |s.reqs| && Live(s.reqs[k]) ==> Left(s.reqs[k]) >= 1
  {
    hide KvInv, BlocksNeededFor;
    KvShape(net, s);
    assert forall k: nat :: k < |s.reqs| ==> Shaped(s.pool.bs, |s.pool.ref|, s.reqs[k]);
  }

  lemma WorkHasHead(net: Net, s: Sys)
    requires SysInv(net, s) && (s.running != [] || s.waiting != [])
    ensures IsHead(s, Head(s))
    ensures forall k :: 0 <= k < |s.reqs| ==> s.reqs[k].draft == 0
  {
    hide KvInv, BlocksNeededFor;
    KvShape(net, s);
    assert forall k: nat :: k < |s.reqs| ==> Shaped(s.pool.bs, |s.pool.ref|, s.reqs[k]);
  }

  lemma PlannedCovered(net: Net, s: Sys, ids: seq<nat>)
    requires StepInv(net, s, ids)
    ensures s.pool.bs >= 1
    ensures forall k :: k in ids ==> k < |s.reqs| && Covered(s.pool.bs, s.reqs[k]) && s.reqs[k].status == Running
  {
    hide KvInv, BlocksNeededFor;
    KvShape(net, s);
  }

  /** While there is work, a step neither fails nor comes back empty, and brings the end
      strictly closer. */
  lemma StepIsCloser(net: Net, cfg: Config, propose: Proposer, s: Sys)
    requires Quiet(net, cfg, s) && (s.running != [] || s.waiting != [])
    ensures var result := PagedStep(net, cfg, propose, s);
      result.Stepped? && Quiet(net, cfg, result.s) && Closer(s, result.s)
  {
    hide KvInv, AllShaped, Queues, NoneHeld, ScheduleLoop, PagedBatch, Advanced, Result, Left, TotalLeft, OthersRoom, HeadLeft, Head, Plain, Covered, SomeSpoke;
    var h := Head(s);
    WorkHasHead(net, s);
    LiveHasRoom(net, s);
    var bound := cfg.maxSeqs + |s.running| + |s.waiting| + 1;
    ScheduleAdvances(net, cfg, propose, s, h, bound);
    var Scheduled(mid, ids) := Schedule(cfg, propose, s);
    PlannedCovered(net, mid, ids);
    StillNoDrafts(s, mid, ids, h);
    BatchResult(net, cfg, mid, ids);
    var s' := PagedBatch(net, cfg, mid, ids).0;
    StageSizes(s, mid, s', ids, h);
    SpeakingIsCloser(s, mid, s', ids, h);
    if !SomeSpoke(mid, s', ids) {
      SilenceIsCloser(s, mid, s', ids, h);
    }
  }

  lemma StageSizes(s: Sys, mid: Sys, s': Sys, ids: seq<nat>, h: nat)
    requires Advanced(s, mid, ids, h) && Result(mid, s', ids)
    ensures |mid.reqs| == |s.reqs| && mid.pool.bs == s.pool.bs == s'.pool.bs
  {
  }

  lemma StillNoDrafts(s: Sys, mid: Sys, ids: seq<nat>, h: nat)
    requires Advanced(s, mid, ids, h) && forall k :: 0 <= k < |s.reqs| ==> s.reqs[k].draft == 0
    ensures forall k :: k in ids && k < |mid.reqs| ==> mid.reqs[k].draft == 0
  {
  }

  // ----- draining -----

  ghost function After(net: Net, cfg: Config, propose: Proposer, s: Sys): Sys {
    match PagedStep(net, cfg, propose, s)
    case Stepped(s', _) => s'
    case _ => s
  }

  /** Steps until nothing is waiting or running; that this is a definition at all is the
      liveness claim. */
  ghost function Drain(net: Net, cfg: Config, propose: Proposer, s: Sys): Sys
    requires Quiet(net, cfg, s)
    decreases TotalLeft(s.reqs), HeadLeft(s), OthersRoom(s.pool.bs, s.reqs, Head(s))
  {
    if s.running == [] && s.waiting == [] then s
    else
      StepIsCloser(net, cfg, propose, s);
      Drain(net, cfg, propose, After(net, cfg, propose, s))
  }

  /** Draining finishes everybody, and each live request ends with exactly the history that
      greedy decoding it alone gives. */
  lemma {:induction false} DrainCompletes(net: Net, cfg: Config, propose: Proposer, s: Sys)
    requires Quiet(net, cfg, s)
    ensures var s' := Drain(net, cfg, propose, s);
      && s'.running == [] && s'.waiting == [] && SysInv(net, s') && |s'.reqs| == |s.reqs|
      && forall k :: 0 <= k < |s.reqs| ==> !Live(s'.reqs[k]) && s'.reqs[k].tokens == FinalTokens(net, cfg.eos, s.reqs[k])
    decreases TotalLeft(s.reqs), HeadLeft(s), OthersRoom(s.pool.bs, s.reqs, Head(s))
  {
    hide KvInv, AllShaped, NoneHeld, PagedStep, FinalTokens, Plain, TotalLeft, OthersRoom, HeadLeft, Head, Harvest;
    if s.running == [] && s.waiting == [] {
      NobodyLive(net, cfg.eos, s);
    } else {
      StepIsCloser(net, cfg, propose, s);
      StepAnswers(net, cfg, propose, s);
      DrainCompletes(net, cfg, propose, After(net, cfg, propose, s));
    }
  }

  lemma NobodyLive(net: Net, eos: Option<Token>, s: Sys)
    requires SysInv(net, s) && s.running == [] && s.waiting == []
    ensures forall k :: 0 <= k < |s.reqs| ==> !Live(s.reqs[k]) && s.reqs[k].tokens == FinalTokens(net, eos, s.reqs[k])
  {
    hide KvInv, BlocksNeededFor, PlainRun;
    KvShape(net, s);
    assert forall k: nat :: k < |s.reqs| ==> Shaped(s.pool.bs, |s.pool.ref|, s.reqs[k]) && k !in s.running && k !in s.waiting;
  }
}

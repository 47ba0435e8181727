/** Whole runs: any interleaving of admissions, steps, resumes, releases, aborts, restarts and
    invalidations emits on the paged pool exactly what it emits on the reference runner. */
module Runs {
  import opened Kv
  import opened BlockPool
  import opened Requests
  import opened Ownership
  import opened OwnershipSteps
  import opened System
  import opened SystemInv
  import opened ScheduleInv
  import opened Engine

  // ----- the scheduler never reads the pool's contents -----

  function HostPass(pass: Pass): Pass {
    if pass.Pass? then pass.(s := Host(pass.s)) else pass
  }

  lemma {:induction false} CopyNothing(copies: seq<(nat, nat)>)
    ensures CopyBlocks([], copies) == []
    decreases |copies|
  {
    var mem: Memory := [];
    if copies != [] {
      var (source, target) := copies[0];
      assert !(source < |mem|);
      CopyNothing(copies[1..]);
    }
  }

  lemma ReserveHost(pass: Pass, k: nat, p: Pool, r: Req, n: nat)
    requires pass.Pass? && k < |pass.s.reqs| && p.bs >= 1
    ensures Reserve(HostPass(pass), k, p, r, n) == HostPass(Reserve(pass, k, p, r, n))
  {
    hide AllocateForTokens, CopyBlocks;
    if AllocateForTokens(p, r, n).Allocated? {
      CopyNothing(AllocateForTokens(p, r, n).copies);
    }
  }

  lemma ConsiderOneHost(cfg: Config, propose: Proposer, pass: Pass, k: nat)
    ensures ConsiderOne(cfg, propose, HostPass(pass), k) == HostPass(ConsiderOne(cfg, propose, pass, k))
  {
    hide PlanRunning, Reserve;
    if pass.Pass? && k < |pass.s.reqs| && pass.s.pool.bs != 0 {
      var (p, r, n) := PlanRunning(cfg, propose, pass.s.pool, pass.s.reqs[k], pass.budget);
      if n != 0 && p.bs != 0 {
        ReserveHost(pass, k, p, r, n);
      }
    }
  }

  lemma {:induction false} ConsiderRunningHost(cfg: Config, propose: Proposer, pass: Pass, ids: seq<nat>)
    ensures ConsiderRunning(cfg, propose, HostPass(pass), ids) == HostPass(ConsiderRunning(cfg, propose, pass, ids))
    decreases |ids|
  {
    hide ConsiderOne, HostPass;
    if ids != [] {
      ConsiderOneHost(cfg, propose, pass, ids[0]);
      ConsiderRunningHost(cfg, propose, ConsiderOne(cfg, propose, pass, ids[0]), ids[1..]);
    }
  }

  lemma ConsiderWaitingHost(pass: Pass, k: nat)
    requires pass.Pass? && k < |pass.s.reqs|
    ensures ConsiderWaiting(HostPass(pass), k) == (HostPass(ConsiderWaiting(pass, k).0), ConsiderWaiting(pass, k).1)
  {
    hide Readmit, TokensToSchedule, Reserve, DecrefAll;
    var s := pass.s;
    if s.pool.bs != 0 {
      var (p, r) := Readmit(s.pool, s.reqs[k]);
      if p.bs != 0 {
        var (p', n) := TokensToSchedule(p, r, pass.budget);
        if n != 0 && p'.bs != 0 {
          ReserveHost(pass, k, p', r, n);
          ReserveKeepsLength(pass, k, p', r, n);
        }
      }
    }
  }

  lemma ReserveKeepsLength(pass: Pass, k: nat, p: Pool, r: Req, n: nat)
    requires pass.Pass? && k < |pass.s.reqs| && p.bs >= 1
    ensures Reserve(pass, k, p, r, n).Pass? ==> |Reserve(pass, k, p, r, n).s.reqs| == |pass.s.reqs|
  {
    hide AllocateForTokens, CopyBlocks;
  }

  lemma {:induction false} ScheduleWaitingHost(cfg: Config, pass: Pass, deferred: seq<nat>)
    ensures ScheduleWaiting(cfg, HostPass(pass), deferred) == HostPass(ScheduleWaiting(cfg, pass, deferred))
    decreases if pass.Pass? then |pass.s.waiting| else 0
  {
    hide ConsiderWaiting;
    if pass.Pass? && pass.s.waiting != [] && !Full(cfg, pass) && pass.s.waiting[0] < |pass.s.reqs| {
      var k := pass.s.waiting[0];
      var popped := pass.(s := pass.s.(waiting := pass.s.waiting[1..]));
      ConsiderWaitingHost(popped, k);
      var (pass', taken) := ConsiderWaiting(popped, k);
      if pass'.Pass? {
        ConsiderKeepsWaiting(popped, k);
        ScheduleWaitingHost(cfg, pass', if taken then deferred else deferred + [k]);
      }
    }
  }

  lemma ConsiderKeepsWaiting(pass: Pass, k: nat)
    requires pass.Pass? && k < |pass.s.reqs|
    ensures ConsiderWaiting(pass, k).0.Pass? ==> ConsiderWaiting(pass, k).0.s.waiting == pass.s.waiting
  {
    hide Readmit, TokensToSchedule, DecrefAll, AllocateForTokens;
  }

  function HostOutcome(outcome: Outcome): Outcome {
    match outcome
    case Scheduled(s, ids) => Scheduled(Host(s), ids)
    case Idle(s) => Idle(Host(s))
    case TooLarge(s) => TooLarge(Host(s))
    case _ => outcome
  }

  lemma PassHost(cfg: Config, propose: Proposer, s: Sys)
    ensures SchedulePass(cfg, propose, Host(s)) == HostPass(SchedulePass(cfg, propose, s))
  {
    hide ConsiderRunning, ScheduleWaiting;
    var start := Pass(s, [], cfg.maxBatched);
    ConsiderRunningHost(cfg, propose, start, s.running);
    ScheduleWaitingHost(cfg, ConsiderRunning(cfg, propose, start, s.running), []);
  }

  lemma PreemptHost(s: Sys)
    requires s.running != []
    ensures Preempt(Host(s)) == Host(Preempt(s))
  {
    hide DecrefAll;
  }

  lemma {:induction false} ScheduleHost(cfg: Config, propose: Proposer, s: Sys, bound: nat)
    ensures ScheduleLoop(cfg, propose, Host(s), bound) == HostOutcome(ScheduleLoop(cfg, propose, s, bound))
    decreases bound
  {
    hide SchedulePass, Preempt;
    if bound != 0 {
      PassHost(cfg, propose, s);
      var pass := SchedulePass(cfg, propose, s);
      if pass.Pass? && pass.scheduled == [] && pass.s.running != [] {
        PreemptHost(pass.s);
        ScheduleHost(cfg, propose, Preempt(pass.s), bound - 1);
      }
    }
  }

  /** One engine step refines one step of the reference runner, and neither of the two errors
      for a broken allocator or scheduler is ever raised. */
  lemma StepRefines(net: Net, cfg: Config, propose: Proposer, s: Sys)
    requires SysInv(net, s)
    ensures var result := PagedStep(net, cfg, propose, s);
      && !result.Broken?
      && SysInv(net, result.s)
      && RefStep(net, cfg, propose, Host(s))
           == (match result case Stepped(s', e) => Stepped(Host(s'), e) case Refused(s') => Refused(Host(s')) case Broken => Broken)
  {
    hide SysInv, StepInv, ScheduleLoop, PagedBatch, RefBatch;
    var bound := cfg.maxSeqs + |s.running| + |s.waiting| + 1;
    ScheduleInvariant(net, cfg, propose, s, bound);
    ScheduleHost(cfg, propose, s, bound);
    var outcome := Schedule(cfg, propose, s);
    if outcome.Scheduled? {
      BatchRefines(net, cfg, outcome.s, outcome.ids);
    }
  }

  // ----- the other operations -----

  datatype Params = Params(maxTokens: nat, minTokens: int, ignoreEos: bool, stops: set<Token>, hold: bool, policy: int)

  function NewRequest(tokens: seq<Token>, q: Params): Req {
    Req(tokens, |tokens|, 0, 0, [], 0, 0, Root, 0, 0, q.maxTokens, q.minTokens, q.ignoreEos, q.stops, q.hold,
        q.policy, Waiting, NoKv, None)
  }

  /** `Restart` is sleep and wake, or a weight update: all KV is dropped, every live request
      is parked, and the pool may come back with other contents.  `Invalidate` is the bare
      invalidation, possibly with a weight update that failed half way. */
  datatype Op =
    | Add(tokens: seq<Token>, params: Params)
    | Step(propose: Proposer)
    | Continue(id: nat, suffix: seq<Token>, params: Params)
    | Finish(id: nat)
    | Abort
    | Restart(net: Net, contents: Memory)
    | Invalidate(net: Net)

  datatype Event = Emitted(tokens: seq<Emission>) | Done | Rejected | Corrupt

  datatype World = World(net: Net, s: Sys)

  function ReleaseAll(s: Sys, ids: seq<nat>): Sys
    decreases |ids|
  {
    if ids == [] then s else ReleaseAll(Release(s, ids[0]), ids[1..])
  }

  function Recontent(s: Sys, contents: Memory): Sys {
    if |contents| == |s.mem| && (forall b :: 0 <= b < |contents| ==> |contents[b]| == s.pool.bs) then s.(mem := contents) else s
  }

  /** Everything but a step is the host's own work, the same for both runners. */
  function HostOp(s: Sys, op: Op): (Sys, Event)
    requires s.pool.bs >= 1
  {
    match op
    case Add(tokens, q) =>
      if tokens == [] || q.maxTokens < 1 then (s, Rejected)
      else (match AddRequest(s, NewRequest(tokens, q)) case None => (s, Rejected) case Some(s') => (s', Done))
    case Continue(k, suffix, q) =>
      (match Resume(s, k, suffix, q.maxTokens, q.hold, q.policy, q.stops, q.ignoreEos)
       case None => (s, Rejected) case Some(s') => (s', Done))
    case Finish(k) => (Release(s, k), Done)
    case Abort => (ReleaseAll(s, s.waiting + s.running), Done)
    case Restart(_, contents) => (ParkAll(InvalidateAll(s)), Done)
    case Invalidate(_) => (InvalidateAll(s), Done)
    case Step(_) => (s, Done)
  }

  function OpNet(net: Net, op: Op): Net {
    match op
    case Restart(net', _) => net'
    case Invalidate(net') => net'
    case _ => net
  }

  ghost function PagedApply(cfg: Config, w: World, op: Op): (World, Event) {
    if w.s.pool.bs == 0 then (w, Corrupt)
    else
      match op
      case Step(propose) =>
        (match PagedStep(w.net, cfg, propose, w.s)
         case Stepped(s, emitted) => (World(w.net, s), Emitted(emitted))
         case Refused(s) => (World(w.net, s), Rejected)
         case Broken => (w, Corrupt))
      case Restart(net, contents) => (World(net, Recontent(HostOp(w.s, op).0, contents)), Done)
      case _ => (World(OpNet(w.net, op), HostOp(w.s, op).0), HostOp(w.s, op).1)
  }

  function RefApply(cfg: Config, w: World, op: Op): (World, Event) {
    if w.s.pool.bs == 0 then (w, Corrupt)
    else
      match op
      case Step(propose) =>
        (match RefStep(w.net, cfg, propose, w.s)
         case Stepped(s, emitted) => (World(w.net, s), Emitted(emitted))
         case Refused(s) => (World(w.net, s), Rejected)
         case Broken => (w, Corrupt))
      case _ => (World(OpNet(w.net, op), HostOp(w.s, op).0), HostOp(w.s, op).1)
  }

  ghost function PagedRun(cfg: Config, w: World, ops: seq<Op>): (World, seq<Event>)
    decreases |ops|
  {
    if ops == [] then (w, [])
    else
      var (w1, e) := PagedApply(cfg, w, ops[0]);
      var (w2, more) := PagedRun(cfg, w1, ops[1..]);
      (w2, [e] + more)
  }

  function RefRun(cfg: Config, w: World, ops: seq<Op>): (World, seq<Event>)
    decreases |ops|
  {
    if ops == [] then (w, [])
    else
      var (w1, e) := RefApply(cfg, w, ops[0]);
      var (w2, more) := RefRun(cfg, w1, ops[1..]);
      (w2, [e] + more)
  }

  function HostWorld(w: World): World {
    World(w.net, Host(w.s))
  }

  // ----- each operation keeps the invariant -----

  lemma AppendKv(net: Net, s: Sys, r: Req)
    requires KvInv(net, s) && r.table == [] && r.computed == 0 && r.status != Running
    ensures KvInv(net, s.(reqs := s.reqs + [r]))
  {
    hide PoolInv, CacheHolds, Held, ReqInv;
    HeldAppend(s.reqs, r);
    assert Held(s.reqs) + multiset(r.table) == Held(s.reqs);
    EmptyReqInv(net, s.pool, s.mem, r);
  }

  lemma ShapedAppend(bs: nat, blocks: nat, reqs: seq<Req>, r: Req)
    requires bs >= 1 && AllShaped(bs, blocks, reqs, []) && Shaped(bs, blocks, r)
    ensures AllShaped(bs, blocks, reqs + [r], [])
  {
    hide Shaped, Planned;
  }

  lemma QueuesAppend(reqs: seq<Req>, waiting: seq<nat>, running: seq<nat>, r: Req)
    requires Queues(reqs, waiting, running) && r.status == Waiting
    ensures Queues(reqs + [r], waiting + [|reqs|], running)
  {
    assert |reqs| !in waiting;
    assert forall k: nat :: k in waiting + [|reqs|] <==> k in waiting || k == |reqs|;
  }

  /** The admitted request is the one submitted, but for the KV it found already cached. */
  lemma AddInv(net: Net, s: Sys, tokens: seq<Token>, q: Params)
    requires SysInv(net, s) && s.pool.bs >= 1 && tokens != [] && q.maxTokens >= 1
    ensures var added := AddRequest(s, NewRequest(tokens, q));
      added.Some? ==> SysInv(net, added.value)
    ensures AddRequest(s, NewRequest(tokens, q)).Some? <==> |tokens| + q.maxTokens <= |s.pool.ref| * s.pool.bs
  {
    hide KvInv, AllShaped, Queues, Local, Frame, Rest, AttachCachedPrefix, PublishReady, BlocksNeededFor;
    KvShape(net, s);
    BlocksNeededForMeaning(|tokens| + q.maxTokens, s.pool.bs, |s.pool.ref|);
    var r, k := NewRequest(tokens, q), |s.reqs|;
    var added := AddRequest(s, r);
    if added.Some? {
      var s1 := s.(reqs := s.reqs + [r]);
      AppendKv(net, s, r);
      At(net, s1, k);
      var rest := Rest(s1.reqs, k);
      AttachStep(net, s.pool, s.mem, rest, r);
      FrameRefl(s.pool, s.mem, rest);
      var (p, r') := if s.pool.caching then AttachCachedPrefix(s.pool, r) else (s.pool, r);
      FrameShape(s.pool, s.mem, p, s.mem, rest);
      Lift(net, s1, k, p, s.mem, r');
      assert s1.reqs[k := r'] == s.reqs + [r'];
      KvQueues(net, s1.(pool := p, mem := s.mem, reqs := s1.reqs[k := r']), s.waiting + [k], s.running);
      ShapedAppend(s.pool.bs, |s.pool.ref|, s.reqs, r');
      QueuesAppend(s.reqs, s.waiting, s.running, r');
    }
  }

  lemma QueuesJoin(reqs: seq<Req>, waiting: seq<nat>, running: seq<nat>, k: nat, r: Req)
    requires Queues(reqs, waiting, running) && k < |reqs|
    requires reqs[k].status != Waiting && reqs[k].status != Running && r.status == Waiting
    ensures Queues(reqs[k := r], waiting + [k], running)
  {
    assert k !in waiting && k !in running;
    assert forall j: nat :: j in waiting + [k] <==> j in waiting || j == k;
  }

  lemma ResumeLocal(net: Net, p: Pool, mem: Memory, rest: multiset<nat>, r: Req, r': Req)
    requires Local(net, p, mem, rest, r) && r.computed <= |r.tokens| <= |r'.tokens| && r'.tokens[..|r.tokens|] == r.tokens
    requires r'.computed == r.computed && r'.table == r.table && r'.published == r.published && r'.parent == r.parent
    requires r'.status == Waiting
    ensures Local(net, p, mem, rest, r') && Frame(p, mem, p, mem, rest)
  {
    hide Local;
    FrameRefl(p, mem, rest);
    assert r'.tokens[..r.computed] == r'.tokens[..|r.tokens|][..r.computed] == r.tokens[..r.computed];
    HistoryStep(net, p, mem, rest, r, r');
  }

  /** A resumed request keeps everything it has computed. */
  lemma ResumeInv(net: Net, s: Sys, k: nat, suffix: seq<Token>, q: Params)
    requires SysInv(net, s) && s.pool.bs >= 1
    ensures var resumed := Resume(s, k, suffix, q.maxTokens, q.hold, q.policy, q.stops, q.ignoreEos);
      resumed.Some? ==> SysInv(net, resumed.value) && resumed.value.pool == s.pool
  {
    hide KvInv, AllShaped, Queues, Local, Frame, Rest, BlocksNeededFor;
    KvShape(net, s);
    var resumed := Resume(s, k, suffix, q.maxTokens, q.hold, q.policy, q.stops, q.ignoreEos);
    if resumed.Some? {
      var r := s.reqs[k];
      var r' := resumed.value.reqs[k];
      At(net, s, k);
      LocalShape(net, s.pool, s.mem, Rest(s.reqs, k), r);
      assert r'.tokens[..|r.tokens|] == r.tokens;
      ResumeLocal(net, s.pool, s.mem, Rest(s.reqs, k), r, r');
      Lift(net, s, k, s.pool, s.mem, r');
      KvQueues(net, s.(pool := s.pool, mem := s.mem, reqs := s.reqs[k := r']), s.waiting + [k], s.running);
      ShapedMember(s.pool.bs, |s.pool.ref|, s.reqs, [], k);
      ShapedKeep(s.pool.bs, |s.pool.ref|, s.reqs, [], k, r');
      QueuesJoin(s.reqs, s.waiting, s.running, k, r');
    }
  }

  lemma ReleaseInv(net: Net, s: Sys, k: nat)
    requires SysInv(net, s)
    ensures SysInv(net, Release(s, k))
    ensures |Release(s, k).reqs| == |s.reqs| && Release(s, k).pool.bs == s.pool.bs
  {
    hide KvInv, Queues, Retire, BlocksNeededFor;
    KvShape(net, s);
    if k < |s.reqs| && s.reqs[k].status != Finished {
      RetireInv(net, s, [], k);
      RetireShape(net, s, k);
    }
  }

  lemma RetireShape(net: Net, s: Sys, k: nat)
    requires KvInv(net, s) && k < |s.reqs|
    ensures |Retire(s, k, Finished).reqs| == |s.reqs| && Retire(s, k, Finished).pool.bs == s.pool.bs
  {
    hide KvInv, DecrefAll, Local, Rest;
    At(net, s, k);
    LocalPool(net, s.pool, s.mem, Rest(s.reqs, k), s.reqs[k]);
    DecrefAllKeeps(s.pool, Rest(s.reqs, k), s.reqs[k].table);
  }

  lemma LocalPool(net: Net, p: Pool, mem: Memory, rest: multiset<nat>, r: Req)
    requires Local(net, p, mem, rest, r)
    ensures PoolInv(p, rest + multiset(r.table))
  {
    hide PoolInv, CacheHolds, ReqInv;
  }

  lemma {:induction false} ReleaseAllInv(net: Net, s: Sys, ids: seq<nat>)
    requires SysInv(net, s)
    ensures SysInv(net, ReleaseAll(s, ids)) && ReleaseAll(s, ids).pool.bs == s.pool.bs
    decreases |ids|
  {
    hide SysInv, Release;
    if ids != [] {
      ReleaseInv(net, s, ids[0]);
      ReleaseAllInv(net, Release(s, ids[0]), ids[1..]);
    }
  }

  // ----- invalidation -----

  /** Nobody running would publish under a parent left over from before. */
  predicate SafeToInvalidate(s: Sys) {
    s.pool.caching ==> forall k :: 0 <= k < |s.reqs| && s.reqs[k].status == Running ==> s.reqs[k].parent == Root
  }

  lemma {:induction false} HeldEmpty(reqs: seq<Req>)
    requires forall k :: 0 <= k < |reqs| ==> reqs[k].table == []
    ensures Held(reqs) == multiset{}
  {
    if reqs != [] {
      HeldEmpty(reqs[..|reqs| - 1]);
    }
  }

  lemma ResetPoolInv(p: Pool)
    requires p.bs >= 1
    ensures PoolInv(ResetPool(p), multiset{}) && ResetPool(p).bs == p.bs && |ResetPool(p).ref| == |p.ref|
    ensures ResetPool(p).cache.lru == [] && ResetPool(p).caching == p.caching
  {
    var q := ResetPool(p);
    forall b: nat | b < |p.ref|
      ensures b in q.free
    {
      assert q.free[b] == b;
    }
  }

  lemma DroppedReqInv(net: Net, p: Pool, mem: Memory, r: Req)
    requires p.bs >= 1 && r.table == [] && r.computed == 0 && r.published == 0 && p.cache.lru == []
    ensures ReqInv(net, p, mem, r) <==> !(p.caching && r.status == Running && r.parent != Root)
  {
    assert Flat(mem, r.table)[..0] == RefCells(net, r.tokens[..0]);
  }

  /** Dropping every table and rebuilding the pool satisfies the invariant, under any weights,
      exactly when no running request has published a block. */
  lemma InvalidateKv(net: Net, net': Net, s: Sys)
    requires KvInv(net, s)
    ensures KvInv(net', InvalidateAll(s)) <==> SafeToInvalidate(s)
  {
    hide PoolInv, Held, ReqInv, ResetPool;
    KvShape(net, s);
    KvMemory(net, s);
    var s' := InvalidateAll(s);
    HeldEmpty(s'.reqs);
    ResetPoolInv(s.pool);
    forall k | 0 <= k < |s.reqs|
      ensures ReqInv(net', s'.pool, s'.mem, s'.reqs[k])
         <==> !(s.pool.caching && s.reqs[k].status == Running && s.reqs[k].parent != Root)
    {
      DroppedReqInv(net', s'.pool, s'.mem, s'.reqs[k]);
    }
  }

  lemma KvMemory(net: Net, s: Sys)
    requires KvInv(net, s)
    ensures MemoryShape(s.mem, s.pool.bs)
  {
    hide PoolInv, CacheHolds, ReqInv;
  }

  lemma InvalidateShaped(bs: nat, blocks: nat, s: Sys)
    requires bs >= 1 && AllShaped(bs, blocks, s.reqs, []) && Queues(s.reqs, s.waiting, s.running)
    ensures var s' := InvalidateAll(s);
      AllShaped(bs, blocks, s'.reqs, []) && Queues(s'.reqs, s'.waiting, s'.running)
  {
    hide BlocksNeededFor, ResetPool;
    assert forall k: nat :: k < |s.reqs| ==> Shaped(bs, blocks, s.reqs[k]);
  }

  /** The exact condition for a bare invalidation: `prefix_parent` survives it, so every
      running request must still have the root as its parent. */
  lemma InvalidateExact(net: Net, net': Net, s: Sys)
    requires SysInv(net, s)
    ensures SysInv(net', InvalidateAll(s)) <==> SafeToInvalidate(s)
  {
    hide KvInv, AllShaped, Queues, SafeToInvalidate, InvalidateAll;
    KvShape(net, s);
    InvalidateKv(net, net', s);
    InvalidateShaped(s.pool.bs, |s.pool.ref|, s);
    ResetPoolInv(s.pool);
    InvalidatePool(s);
  }

  lemma InvalidatePool(s: Sys)
    ensures InvalidateAll(s).pool == ResetPool(s.pool)
  {
  }

  /** Parking after the invalidation makes it unconditional. */
  lemma RestartInv(net: Net, net': Net, s: Sys, contents: Memory)
    requires SysInv(net, s)
    ensures SysInv(net', Recontent(ParkAll(InvalidateAll(s)), contents))
    ensures ParkAll(InvalidateAll(s)).pool.bs == s.pool.bs
  {
    hide KvInv, AllShaped, ResetPool, Recontent;
    RestartKv(net, net', s, contents);
    RestartShaped(net, s, contents);
  }

  lemma RestartKv(net: Net, net': Net, s: Sys, contents: Memory)
    requires KvInv(net, s)
    ensures KvInv(net', Recontent(ParkAll(InvalidateAll(s)), contents))
  {
    hide PoolInv, Held, ReqInv, ResetPool, BlocksNeededFor;
    var s' := Recontent(ParkAll(InvalidateAll(s)), contents);
    HeldEmpty(s'.reqs);
    ResetPoolInv(s.pool);
    forall k | 0 <= k < |s.reqs|
      ensures ReqInv(net', s'.pool, s'.mem, s'.reqs[k])
    {
      DroppedReqInv(net', s'.pool, s'.mem, s'.reqs[k]);
    }
  }

  lemma RestartShaped(net: Net, s: Sys, contents: Memory)
    requires SysInv(net, s)
    ensures var s' := Recontent(ParkAll(InvalidateAll(s)), contents);
      AllShaped(s'.pool.bs, |s'.pool.ref|, s'.reqs, []) && Queues(s'.reqs, s'.waiting, s'.running) && ParkAll(InvalidateAll(s)).pool.bs == s.pool.bs
  {
    hide KvInv, ResetPool, BlocksNeededFor, PoolInv;
    KvShape(net, s);
    ResetPoolInv(s.pool);
    assert forall k: nat :: k < |s.reqs| ==> Shaped(s.pool.bs, |s.pool.ref|, s.reqs[k]);
  }

  // ----- the host's operations do not read the pool's contents either -----

  lemma {:induction false} ReleaseAllMem(s: Sys, ids: seq<nat>, mem: Memory)
    ensures ReleaseAll(s.(mem := mem), ids) == ReleaseAll(s, ids).(mem := mem)
    decreases |ids|
  {
    hide DecrefAll, Without;
    if ids != [] {
      ReleaseAllMem(Release(s, ids[0]), ids[1..], mem);
    }
  }

  lemma HostOpMem(s: Sys, op: Op, mem: Memory)
    requires s.pool.bs >= 1
    ensures HostOp(s.(mem := mem), op) == (HostOp(s, op).0.(mem := mem), HostOp(s, op).1)
  {
    hide AttachCachedPrefix, ReleaseAll, ResetPool, BlocksNeededFor;
    ReleaseAllMem(s, s.waiting + s.running, mem);
  }

  lemma HostOpInv(net: Net, s: Sys, op: Op)
    requires SysInv(net, s) && s.pool.bs >= 1 && !op.Step? && !op.Restart?
    requires op.Invalidate? ==> SafeToInvalidate(s)
    ensures SysInv(OpNet(net, op), HostOp(s, op).0)
  {
    hide SysInv, AddRequest, Resume, Release, ReleaseAll, InvalidateAll, SafeToInvalidate;
    match op
    case Add(tokens, q) =>
      if tokens != [] && q.maxTokens >= 1 {
        AddInv(net, s, tokens, q);
      }
    case Continue(k, suffix, q) => ResumeInv(net, s, k, suffix, q);
    case Finish(k) => ReleaseInv(net, s, k);
    case Abort => ReleaseAllInv(net, s, s.waiting + s.running);
    case Invalidate(net') => InvalidateExact(net, net', s);
  }

  // ----- whole runs -----

  ghost predicate WorldInv(w: World) {
    SysInv(w.net, w.s)
  }

  lemma WorldShape(w: World)
    requires WorldInv(w)
    ensures w.s.pool.bs >= 1
  {
    hide KvInv;
    KvShape(w.net, w.s);
  }

  lemma ApplyRefines(cfg: Config, w: World, op: Op)
    requires WorldInv(w) && (op.Invalidate? ==> SafeToInvalidate(w.s))
    ensures var (w', event) := PagedApply(cfg, w, op);
      && WorldInv(w') && event != Corrupt
      && RefApply(cfg, HostWorld(w), op) == (HostWorld(w'), event)
  {
    hide SysInv, HostOp, PagedStep, RefStep, SafeToInvalidate;
    WorldShape(w);
    if op.Step? {
      StepRefines(w.net, cfg, op.propose, w.s);
    } else {
      HostOpMem(w.s, op, []);
      if op.Restart? {
        RestartInv(w.net, op.net, w.s, op.contents);
        RestartUnfolds(w.s, op);
      } else {
        HostOpInv(w.net, w.s, op);
        HostOpEvent(w.s, op);
      }
    }
  }

  lemma RestartUnfolds(s: Sys, op: Op)
    requires s.pool.bs >= 1 && op.Restart?
    ensures HostOp(s, op) == (ParkAll(InvalidateAll(s)), Done)
  {
  }

  lemma HostOpEvent(s: Sys, op: Op)
    requires s.pool.bs >= 1
    ensures HostOp(s, op).1 == Done || HostOp(s, op).1 == Rejected
  {
  }

  /** Every bare invalidation of the run happens at a safe moment. */
  ghost predicate Careful(cfg: Config, w: World, ops: seq<Op>)
    decreases |ops|
  {
    ops == [] || ((ops[0].Invalidate? ==> SafeToInvalidate(w.s)) && Careful(cfg, PagedApply(cfg, w, ops[0]).0, ops[1..]))
  }

  /** The headline.  Over any interleaving, with chunked prefill, shared prefixes, eviction,
      preemption, speculation, pauses, resumes and weight updates, the paged engine reports
      event for event what recomputing every prefix from token 0 reports, and the two hosts
      end in the same state. */
  lemma {:induction false} RunRefines(cfg: Config, w: World, ops: seq<Op>)
    requires WorldInv(w) && Careful(cfg, w, ops)
    ensures var (w', events) := PagedRun(cfg, w, ops);
      && WorldInv(w') && Corrupt !in events
      && RefRun(cfg, HostWorld(w), ops) == (HostWorld(w'), events)
    decreases |ops|
  {
    hide WorldInv, PagedApply, RefApply, SafeToInvalidate, HostWorld;
    if ops != [] {
      ApplyRefines(cfg, w, ops[0]);
      RunRefines(cfg, PagedApply(cfg, w, ops[0]).0, ops[1..]);
    }
  }

  /** A new engine: nothing admitted, every block free, whatever the pool contains. */
  function Boot(bs: nat, blocks: nat, caching: bool, contents: Memory): Sys {
    Sys(Pool(bs, caching, seq(blocks, i requires 0 <= i => i), seq(blocks, _ => 0), Cache(map[], []), 0), contents, [], [], [])
  }

  lemma BootInv(net: Net, bs: nat, blocks: nat, caching: bool, contents: Memory)
    requires bs >= 1 && |contents| == blocks && MemoryShape(contents, bs)
    ensures SysInv(net, Boot(bs, blocks, caching, contents))
  {
    var p := Boot(bs, blocks, caching, contents).pool;
    forall b: nat | b < blocks
      ensures b in p.free
    {
      assert p.free[b] == b;
    }
    assert Held([]) == multiset{};
  }
}

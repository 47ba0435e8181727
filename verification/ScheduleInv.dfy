/** A scheduling pass keeps the system invariant: nothing it does disturbs what is computed,
    and every request it schedules is covered by blocks that are its alone. */
module ScheduleInv {
  import opened Kv
  import opened BlockPool
  import opened Requests
  import opened Ownership
  import opened OwnershipSteps
  import opened System
  import opened SystemInv
  import opened SchedulePlan

  // ----- requests between steps and inside one -----

  predicate Live(r: Req) {
    r.status == Waiting || r.status == Running
  }

  /** A request between steps: a live one has something to compute, room to emit, and would
      fit in the pool on its own. */
  ghost predicate Shaped(bs: nat, blocks: nat, r: Req)
    requires bs >= 1
  {
    && r.draft == 0 && r.scheduled == 0 && 1 <= r.prompt <= |r.tokens|
    && (Live(r) ==>
          && r.computed < |r.tokens| && |r.tokens| - r.prompt < r.maxTokens
          && BlocksNeededFor(r.prompt + r.maxTokens, bs) <= blocks)
    && (r.status == Finished ==> r.table == [])
  }

  /** A request the current pass has scheduled. */
  ghost predicate Planned(bs: nat, blocks: nat, r: Req)
    requires bs >= 1
  {
    && Covered(bs, r) && r.status == Running
    && r.draft <= |r.tokens| && Shaped(bs, blocks, Strip(r).(scheduled := 0))
    && (r.draft > 0 ==> r.scheduled == 1 + r.draft && r.computed + r.scheduled == |r.tokens| && r.PrefillComplete())
  }

  ghost predicate AllShaped(bs: nat, blocks: nat, reqs: seq<Req>, scheduled: seq<nat>)
    requires bs >= 1
  {
    && Distinct(scheduled)
    && (forall k :: k in scheduled ==> k < |reqs| && Planned(bs, blocks, reqs[k]))
    && (forall k: nat :: k < |reqs| && k !in scheduled ==> Shaped(bs, blocks, reqs[k]))
  }

  /** The two deques list exactly the requests whose status says so, once each. */
  ghost predicate Queues(reqs: seq<Req>, waiting: seq<nat>, running: seq<nat>) {
    && Distinct(waiting) && Distinct(running)
    && (forall k: nat :: k in waiting <==> k < |reqs| && reqs[k].status == Waiting)
    && (forall k: nat :: k in running <==> k < |reqs| && reqs[k].status == Running)
  }

  /** Between steps. */
  ghost predicate SysInv(net: Net, s: Sys) {
    && KvInv(net, s)
    && AllShaped(s.pool.bs, |s.pool.ref|, s.reqs, [])
    && Queues(s.reqs, s.waiting, s.running)
  }

  /** During a pass; `deferred` has been popped from the waiting queue and will be put back. */
  ghost predicate PassInv(net: Net, pass: Pass, deferred: seq<nat>) {
    && pass.Pass?
    && KvInv(net, pass.s)
    && AllShaped(pass.s.pool.bs, |pass.s.pool.ref|, pass.s.reqs, pass.scheduled)
    && Queues(pass.s.reqs, deferred + pass.s.waiting, pass.s.running)
  }

  lemma RunningReady(net: Net, p: Pool, mem: Memory, rest: multiset<nat>, r: Req)
    requires Local(net, p, mem, rest, r) && p.bs >= 1 && r.status == Running
    ensures PublishReady(p, r)
  {
    hide RefCells, Flat, ChainHash, PoolInv, CacheHolds;
  }

  lemma QueuesKeep(reqs: seq<Req>, k: nat, r: Req, waiting: seq<nat>, running: seq<nat>)
    requires k < |reqs| && r.status == reqs[k].status && Queues(reqs, waiting, running)
    ensures Queues(reqs[k := r], waiting, running)
  {
  }

  lemma ShapedKeep(bs: nat, blocks: nat, reqs: seq<Req>, scheduled: seq<nat>, k: nat, r: Req)
    requires bs >= 1 && AllShaped(bs, blocks, reqs, scheduled) && k < |reqs| && k !in scheduled
    requires Shaped(bs, blocks, r)
    ensures AllShaped(bs, blocks, reqs[k := r], scheduled)
  {
    hide Shaped, Planned;
  }

  lemma ShapedSchedule(bs: nat, blocks: nat, reqs: seq<Req>, scheduled: seq<nat>, k: nat, r: Req)
    requires bs >= 1 && AllShaped(bs, blocks, reqs, scheduled) && k < |reqs| && k !in scheduled
    requires Planned(bs, blocks, r)
    ensures AllShaped(bs, blocks, reqs[k := r], scheduled + [k])
  {
    hide Shaped, Planned;
    assert forall j :: j in scheduled + [k] <==> j in scheduled || j == k;
  }

  /** The pass after a step that changed one request's KV bookkeeping only. */
  lemma SetReqInv(net: Net, pass: Pass, deferred: seq<nat>, k: nat, p: Pool, r: Req)
    requires PassInv(net, pass, deferred) && k < |pass.s.reqs| && k !in pass.scheduled
    requires Local(net, p, pass.s.mem, Rest(pass.s.reqs, k), r)
    requires Frame(pass.s.pool, pass.s.mem, p, pass.s.mem, Rest(pass.s.reqs, k))
    requires r.status == pass.s.reqs[k].status && Shaped(pass.s.pool.bs, |pass.s.pool.ref|, r)
    ensures PassInv(net, pass.(s := SetReq(pass.s, k, p, r)), deferred)
  {
    hide Local, KvInv, Rest, AllShaped, Queues, Shaped;
    var s := pass.s;
    KvShape(net, s);
    Lift(net, s, k, p, s.mem, r);
    QueuesKeep(s.reqs, k, r, deferred + s.waiting, s.running);
    ShapedKeep(s.pool.bs, |s.pool.ref|, s.reqs, pass.scheduled, k, r);
  }

  lemma KvShape(net: Net, s: Sys)
    requires KvInv(net, s)
    ensures s.pool.bs >= 1 && |s.mem| == |s.pool.ref|
  {
    hide PoolInv, CacheHolds, ReqInv;
  }

  /** Reserving a planned span for a running request. */
  lemma ReserveInv(net: Net, pass: Pass, deferred: seq<nat>, k: nat, q: Pool, r: Req, n: nat)
    requires PassInv(net, pass, deferred) && k < |pass.s.reqs| && k !in pass.scheduled
    requires q.bs == pass.s.pool.bs >= 1
    requires Local(net, q, pass.s.mem, Rest(pass.s.reqs, k), r) && PublishReady(q, r)
    requires Frame(pass.s.pool, pass.s.mem, q, pass.s.mem, Rest(pass.s.reqs, k))
    requires n > 0 && Fits(q, r, n) && r.computed + n <= |r.tokens|
    requires r.draft <= |r.tokens| && (r.draft > 0 ==> n == 1 + r.draft && r.computed + n == |r.tokens| && r.PrefillComplete())
    requires Live(r) && Shaped(q.bs, |pass.s.pool.ref|, Strip(r))
    ensures Reserve(pass, k, q, r, n).Pass?
    ensures var pass' := Reserve(pass, k, q, r, n);
      && pass'.s.waiting == pass.s.waiting && pass'.s.running == pass.s.running
      && pass'.scheduled == pass.scheduled + [k]
      && |pass'.s.reqs| == |pass.s.reqs| && pass'.s == pass.s.(pool := pass'.s.pool, reqs := pass.s.reqs[k := pass'.s.reqs[k]])
      && KvInv(net, pass'.s.(reqs := pass'.s.reqs[k := pass'.s.reqs[k].(status := Running)]))
      && pass'.s.reqs[k] == r.(table := pass'.s.reqs[k].table, epoch := q.epoch, scheduled := n)
      && pass'.s.pool.bs == pass.s.pool.bs && |pass'.s.pool.ref| == |pass.s.pool.ref|
      && Planned(q.bs, |pass.s.pool.ref|, pass'.s.reqs[k].(status := Running))
      && pass'.s.reqs[k].table != []
  {
    hide Local, KvInv, Rest, AllShaped, Queues, Frame, Fits, AllocateForTokens, PublishReady, Available;
    var s := pass.s;
    var rest := Rest(s.reqs, k);
    ReserveStep(net, q, s.mem, rest, r, n);
    var Allocated(q', r', copies) := AllocateForTokens(q, r, n);
    var rk := r'.(scheduled := n);
    FrameTransitive(s.pool, s.mem, q, s.mem, q', s.mem, rest);
    FrameShape(s.pool, s.mem, q', s.mem, rest);
    SameKvKeeps(net, q', s.mem, rest, rk, rk.(status := Running));
    Lift(net, s, k, q', s.mem, rk.(status := Running));
    PlannedFrom(q.bs, |s.pool.ref|, r, rk.(status := Running));
    assert s.reqs[k := rk][k := rk.(status := Running)] == s.reqs[k := rk.(status := Running)];
  }

  lemma PlannedFrom(bs: nat, blocks: nat, r: Req, r': Req)
    requires bs >= 1 && Live(r) && Shaped(bs, blocks, Strip(r)) && r.draft <= |r.tokens|
    requires r' == r.(table := r'.table, epoch := r'.epoch, scheduled := r'.scheduled, status := Running)
    requires Covered(bs, r')
    requires r.draft > 0 ==> r'.scheduled == 1 + r.draft && r'.computed + r'.scheduled == |r'.tokens| && r.PrefillComplete()
    ensures Planned(bs, blocks, r')
  {
    hide BlocksNeededFor;
  }

  // ----- running requests -----

  lemma ConsiderOneInv(net: Net, cfg: Config, propose: Proposer, pass: Pass, deferred: seq<nat>, k: nat)
    requires PassInv(net, pass, deferred) && k in pass.s.running && k !in pass.scheduled
    ensures var pass' := ConsiderOne(cfg, propose, pass, k);
      && PassInv(net, pass', deferred)
      && pass'.s.waiting == pass.s.waiting && pass'.s.running == pass.s.running
      && (pass'.scheduled == pass.scheduled || pass'.scheduled == pass.scheduled + [k])
  {
    hide Local, KvInv, Rest, AllShaped, Queues, Frame, Fits, PlanRunning, Reserve, PublishReady, Shaped, Available;
    var s := pass.s;
    KvShape(net, s);
    QueueMember(s.reqs, deferred + s.waiting, s.running, k);
    ShapedMember(s.pool.bs, |s.pool.ref|, s.reqs, pass.scheduled, k);
    if !Full(cfg, pass) {
      var rest := Rest(s.reqs, k);
      At(net, s, k);
      PlanRunningStep(net, cfg, propose, s.pool, s.mem, rest, s.reqs[k], pass.budget);
      var (p, r, n) := PlanRunning(cfg, propose, s.pool, s.reqs[k], pass.budget);
      if n == 0 {
        SetReqInv(net, pass, deferred, k, p, r);
      } else {
        PlanKeepsStatus(s.reqs[k], r);
        RunningReady(net, p, s.mem, rest, r);
        ReserveInv(net, pass, deferred, k, p, r, n);
        ReservedPass(net, pass, deferred, k, Reserve(pass, k, p, r, n));
      }
    }
  }

  lemma QueueMember(reqs: seq<Req>, waiting: seq<nat>, running: seq<nat>, k: nat)
    requires Queues(reqs, waiting, running)
    ensures k in running ==> k < |reqs| && reqs[k].status == Running
    ensures k in waiting ==> k < |reqs| && reqs[k].status == Waiting
  {
  }

  lemma ShapedMember(bs: nat, blocks: nat, reqs: seq<Req>, scheduled: seq<nat>, k: nat)
    requires bs >= 1 && AllShaped(bs, blocks, reqs, scheduled) && k < |reqs| && k !in scheduled
    ensures Shaped(bs, blocks, reqs[k]) && reqs[k].draft == 0
  {
    hide Planned, BlocksNeededFor;
  }

  lemma PlanKeepsStatus(r: Req, r': Req)
    requires r.draft == 0 && (r' == r || DraftOf(r, r'))
    ensures r'.status == r.status && Strip(r') == r && r'.draft <= |r'.tokens|
  {
  }

  lemma ReservedPass(net: Net, pass: Pass, deferred: seq<nat>, k: nat, pass': Pass)
    requires PassInv(net, pass, deferred) && k < |pass.s.reqs| && k !in pass.scheduled && pass.s.reqs[k].status == Running
    requires pass'.Pass? && pass'.scheduled == pass.scheduled + [k] && |pass'.s.reqs| == |pass.s.reqs|
    requires pass'.s == pass.s.(pool := pass'.s.pool, reqs := pass.s.reqs[k := pass'.s.reqs[k]])
    requires pass'.s.reqs[k].status == Running
    requires pass'.s.pool.bs == pass.s.pool.bs >= 1 && |pass'.s.pool.ref| == |pass.s.pool.ref|
    requires KvInv(net, pass'.s.(reqs := pass'.s.reqs[k := pass'.s.reqs[k].(status := Running)]))
    requires Planned(pass.s.pool.bs, |pass.s.pool.ref|, pass'.s.reqs[k].(status := Running))
    ensures PassInv(net, pass', deferred)
  {
    hide KvInv, AllShaped, Queues, Planned;
    var r := pass'.s.reqs[k];
    assert r.(status := Running) == r;
    assert pass'.s.reqs[k := r] == pass'.s.reqs;
    ShapedSchedule(pass.s.pool.bs, |pass.s.pool.ref|, pass.s.reqs, pass.scheduled, k, r);
    QueuesKeep(pass.s.reqs, k, r, deferred + pass.s.waiting, pass.s.running);
  }

  ghost predicate Extends(ids: seq<nat>, ids': seq<nat>, from: seq<nat>) {
    ids <= ids' && forall k :: k in ids' ==> k in ids || k in from
  }

  lemma {:induction false} ConsiderRunningInv(net: Net, cfg: Config, propose: Proposer, pass: Pass, deferred: seq<nat>, ids: seq<nat>)
    requires PassInv(net, pass, deferred) && Distinct(ids)
    requires forall k :: k in ids ==> k in pass.s.running && k !in pass.scheduled
    ensures var pass' := ConsiderRunning(cfg, propose, pass, ids);
      && PassInv(net, pass', deferred)
      && pass'.s.waiting == pass.s.waiting && pass'.s.running == pass.s.running
      && Extends(pass.scheduled, pass'.scheduled, ids)
    decreases |ids|
  {
    hide PassInv, ConsiderOne;
    if ids != [] {
      var k := ids[0];
      assert k in ids && forall j :: j in ids[1..] ==> j in ids && j != k;
      ConsiderOneInv(net, cfg, propose, pass, deferred, k);
      ConsiderRunningInv(net, cfg, propose, ConsiderOne(cfg, propose, pass, k), deferred, ids[1..]);
    }
  }

  // ----- waiting requests -----

  lemma ReadmitStep(net: Net, p: Pool, mem: Memory, rest: multiset<nat>, r: Req)
    requires Local(net, p, mem, rest, r) && p.bs >= 1 && r.tokens != [] && r.status == Waiting && r.computed < |r.tokens|
    ensures var (q, r') := Readmit(p, r);
      && q.bs == p.bs
      && Local(net, q, mem, rest, r') && Frame(p, mem, q, mem, rest) && PublishReady(q, r')
      && r'.computed < |r.tokens|
      && r' == r.(table := r'.table, computed := r'.computed, cached := r'.cached, published := r'.published, parent := r'.parent)
      && (!p.caching ==> q == p && r' == r)
  {
    hide Frame, AttachCachedPrefix, Local;
    FrameRefl(p, mem, rest);
    if p.caching && r.table == [] && r.computed == 0 {
      AttachStep(net, p, mem, rest, r);
    } else {
      NoTableNothingComputed(net, p, mem, rest, r);
    }
  }

  lemma NoTableNothingComputed(net: Net, p: Pool, mem: Memory, rest: multiset<nat>, r: Req)
    requires Local(net, p, mem, rest, r) && p.bs >= 1
    ensures r.table == [] ==> r.computed == 0
    ensures r.table != [] || !p.caching ==> PublishReady(p, r)
  {
    hide RefCells, ChainHash, PoolInv, CacheHolds;
  }

  lemma QueuesAdmit(reqs: seq<Req>, before: seq<nat>, k: nat, after: seq<nat>, running: seq<nat>, r: Req)
    requires Queues(reqs, before + [k] + after, running) && k < |reqs| && r.status == Running
    ensures Queues(reqs[k := r], before + after, running + [k])
  {
    var waiting := before + [k] + after;
    assert waiting[|before|] == k;
    assert forall i :: 0 <= i < |before| ==> before[i] == waiting[i];
    assert forall i :: 0 <= i < |after| ==> after[i] == waiting[|before| + 1 + i];
    assert k !in before && k !in after;
    assert forall j :: j in waiting <==> j in before || j == k || j in after;
    assert forall j :: j in running + [k] <==> j in running || j == k;
    var rest := before + after;
    assert forall i :: 0 <= i < |rest| ==> rest[i] == waiting[if i < |before| then i else i + 1];
  }

  ghost predicate ConsideredWaiting(net: Net, pass: Pass, deferred: seq<nat>, k: nat, pass': Pass, taken: bool) {
    && PassInv(net, pass', if taken then deferred else deferred + [k])
    && pass.Pass?
    && pass'.s.waiting == pass.s.waiting
    && pass'.scheduled == (if taken then pass.scheduled + [k] else pass.scheduled)
  }

  lemma ConsiderWaitingInv(net: Net, pass: Pass, deferred: seq<nat>, k: nat)
    requires PassInv(net, pass, deferred + [k])
    ensures k < |pass.s.reqs|
    ensures var (pass', taken) := ConsiderWaiting(pass, k); ConsideredWaiting(net, pass, deferred, k, pass', taken)
  {
    hide Local, KvInv, Rest, AllShaped, Queues, Frame, Fits, Reserve, PublishReady, Shaped, Available, Readmit, TokensToSchedule, DecrefAll;
    var s := pass.s;
    KvShape(net, s);
    WaitingFacts(net, pass, deferred, k);
    var r0, rest := s.reqs[k], Rest(s.reqs, k);
    At(net, s, k);
    ReadmitStep(net, s.pool, s.mem, rest, r0);
    var (p, r) := Readmit(s.pool, r0);
    TokensStep(net, p, s.mem, rest, r, pass.budget);
    var (p', n) := TokensToSchedule(p, r, pass.budget);
    FrameTransitive(s.pool, s.mem, p, s.mem, p', s.mem, rest);
    ShapedReadmit(s.pool.bs, |s.pool.ref|, r0, r);
    if n == 0 {
      var r2 := r.(table := []).ResetKv();
      DeallocateStep(net, p', s.mem, rest, r, r2);
      FrameTransitive(s.pool, s.mem, p', s.mem, DecrefAll(p', r.table), s.mem, rest);
      if r.computed > 0 && r0.table == [] && r0.computed == 0 {
        SetReqInv(net, pass, deferred + [k], k, DecrefAll(p', r.table), r2);
      } else {
        SetReqInv(net, pass, deferred + [k], k, p', r);
      }
    } else {
      PublishReadySame(p, s.mem, p', rest, r);
      StripNothing(r);
      ReserveInv(net, pass, deferred + [k], k, p', r, n);
      AdmittedPass(net, pass, deferred, k, Reserve(pass, k, p', r, n));
    }
  }

  lemma WaitingFacts(net: Net, pass: Pass, deferred: seq<nat>, k: nat)
    requires PassInv(net, pass, deferred + [k])
    ensures k < |pass.s.reqs| && pass.s.reqs[k].status == Waiting && k !in pass.scheduled
    ensures pass.s.pool.bs >= 1 && Shaped(pass.s.pool.bs, |pass.s.pool.ref|, pass.s.reqs[k])
    ensures pass.s.reqs[k].tokens != [] && pass.s.reqs[k].computed < |pass.s.reqs[k].tokens|
  {
    hide KvInv, BlocksNeededFor;
    KvShape(net, pass.s);
    var waiting := deferred + [k] + pass.s.waiting;
    assert waiting[|deferred|] == k;
    assert k in waiting;
  }

  /** Attaching, or releasing again, leaves a waiting request in shape. */
  lemma ShapedReadmit(bs: nat, blocks: nat, r0: Req, r: Req)
    requires bs >= 1 && Shaped(bs, blocks, r0) && r0.status == Waiting && r.computed < |r0.tokens|
    requires r == r0.(table := r.table, computed := r.computed, cached := r.cached, published := r.published, parent := r.parent)
    ensures Shaped(bs, blocks, r) && Shaped(bs, blocks, r.(table := []).ResetKv()) && Live(r) && r.draft == 0
  {
    hide BlocksNeededFor;
  }

  lemma AdmittedPass(net: Net, pass: Pass, deferred: seq<nat>, k: nat, mid: Pass)
    requires PassInv(net, pass, deferred + [k]) && k < |pass.s.reqs| && k !in pass.scheduled
    requires mid.Pass? && mid.scheduled == pass.scheduled + [k] && |mid.s.reqs| == |pass.s.reqs|
    requires mid.s == pass.s.(pool := mid.s.pool, reqs := pass.s.reqs[k := mid.s.reqs[k]])
    requires mid.s.pool.bs == pass.s.pool.bs >= 1 && |mid.s.pool.ref| == |pass.s.pool.ref|
    requires KvInv(net, mid.s.(reqs := mid.s.reqs[k := mid.s.reqs[k].(status := Running)]))
    requires Planned(pass.s.pool.bs, |pass.s.pool.ref|, mid.s.reqs[k].(status := Running))
    ensures PassInv(net, mid.(s := mid.s.(reqs := mid.s.reqs[k := mid.s.reqs[k].(status := Running)],
                                          running := mid.s.running + [k])), deferred)
  {
    hide KvInv, AllShaped, Queues, Planned;
    var r := mid.s.reqs[k].(status := Running);
    assert mid.s.reqs[k := r] == pass.s.reqs[k := r];
    ShapedSchedule(pass.s.pool.bs, |pass.s.pool.ref|, pass.s.reqs, pass.scheduled, k, r);
    QueuesAdmit(pass.s.reqs, deferred, k, pass.s.waiting, pass.s.running, r);
    assert KvInv(net, mid.s.(reqs := mid.s.reqs[k := r]));
    KvQueues(net, mid.s.(reqs := mid.s.reqs[k := r]), mid.s.waiting, mid.s.running + [k]);
  }

  /** The queues are no part of the KV invariant. */
  lemma KvQueues(net: Net, s: Sys, waiting: seq<nat>, running: seq<nat>)
    requires KvInv(net, s)
    ensures KvInv(net, s.(waiting := waiting, running := running))
  {
    hide PoolInv, CacheHolds, ReqInv, Held;
  }

  lemma {:induction false} ScheduleWaitingInv(net: Net, cfg: Config, pass: Pass, deferred: seq<nat>)
    requires PassInv(net, pass, deferred)
    ensures var pass' := ScheduleWaiting(cfg, pass, deferred);
      PassInv(net, pass', []) && pass.scheduled <= pass'.scheduled
    decreases |pass.s.waiting|
  {
    hide ConsiderWaiting, Full;
    WaitingInRange(net, pass, deferred);
    if pass.s.waiting == [] || Full(cfg, pass) {
      PutBack(net, pass, deferred);
    } else {
      var k := pass.s.waiting[0];
      var popped := pass.(s := pass.s.(waiting := pass.s.waiting[1..]));
      PopInv(net, pass, deferred);
      ConsiderWaitingInv(net, popped, deferred, k);
      var (pass', taken) := ConsiderWaiting(popped, k);
      ScheduleWaitingInv(net, cfg, pass', if taken then deferred else deferred + [k]);
    }
  }

  lemma WaitingInRange(net: Net, pass: Pass, deferred: seq<nat>)
    requires PassInv(net, pass, deferred)
    ensures pass.s.waiting != [] ==> pass.s.waiting[0] < |pass.s.reqs|
  {
    hide KvInv, AllShaped;
    if pass.s.waiting != [] {
      var waiting := deferred + pass.s.waiting;
      assert waiting[|deferred|] == pass.s.waiting[0];
      assert pass.s.waiting[0] in waiting;
    }
  }

  lemma PutBack(net: Net, pass: Pass, deferred: seq<nat>)
    requires PassInv(net, pass, deferred)
    ensures PassInv(net, pass.(s := pass.s.(waiting := deferred + pass.s.waiting)), [])
  {
    hide AllShaped, Queues, KvInv;
    KvQueues(net, pass.s, deferred + pass.s.waiting, pass.s.running);
    assert [] + (deferred + pass.s.waiting) == deferred + pass.s.waiting;
  }

  lemma PopInv(net: Net, pass: Pass, deferred: seq<nat>)
    requires PassInv(net, pass, deferred) && pass.s.waiting != []
    ensures PassInv(net, pass.(s := pass.s.(waiting := pass.s.waiting[1..])), deferred + [pass.s.waiting[0]])
  {
    hide AllShaped, Queues, KvInv;
    KvQueues(net, pass.s, pass.s.waiting[1..], pass.s.running);
    assert deferred + [pass.s.waiting[0]] + pass.s.waiting[1..] == deferred + pass.s.waiting;
  }

  /** One whole pass from a state between steps. */
  lemma SchedulePassInv(net: Net, cfg: Config, propose: Proposer, s: Sys)
    requires SysInv(net, s)
    ensures PassInv(net, SchedulePass(cfg, propose, s), [])
  {
    hide KvInv, AllShaped, ConsiderRunning, ScheduleWaiting;
    var start := Pass(s, [], cfg.maxBatched);
    assert [] + s.waiting == s.waiting;
    assert PassInv(net, start, []);
    ConsiderRunningInv(net, cfg, propose, start, [], s.running);
    ScheduleWaitingInv(net, cfg, ConsiderRunning(cfg, propose, start, s.running), []);
  }

  // ----- preemption and the loop -----

  lemma QueuesPreempt(reqs: seq<Req>, waiting: seq<nat>, running: seq<nat>, r: Req)
    requires Queues(reqs, waiting, running) && running != [] && r.status == Waiting
    ensures var k := running[|running| - 1];
      k < |reqs| && reqs[k].status == Running && Queues(reqs[k := r], [k] + waiting, running[..|running| - 1])
  {
    var k := running[|running| - 1];
    assert k in running;
    var init := running[..|running| - 1];
    assert forall j :: j in running <==> j in init || j == k;
    assert k !in init && k !in waiting;
    assert forall j :: j in [k] + waiting <==> j in waiting || j == k;
  }

  /** A preempted request keeps its history and gives back every block. */
  lemma PreemptInv(net: Net, s: Sys)
    requires SysInv(net, s) && s.running != []
    ensures SysInv(net, Preempt(s))
    ensures |Preempt(s).running| == |s.running| - 1
  {
    hide Local, KvInv, Rest, AllShaped, Queues, Frame, Shaped, DecrefAll;
    var k := s.running[|s.running| - 1];
    KvShape(net, s);
    PreemptTarget(net, s, k);
    var r := s.reqs[k];
    var r' := r.(table := []).ResetKv().(status := Waiting);
    StripNothing(r);
    At(net, s, k);
    DeallocateStep(net, s.pool, s.mem, Rest(s.reqs, k), r, r');
    var q := DecrefAll(s.pool, r.table);
    FrameShape(s.pool, s.mem, q, s.mem, Rest(s.reqs, k));
    Lift(net, s, k, q, s.mem, r');
    QueuesPreempt(s.reqs, s.waiting, s.running, r');
    ShapedPreempt(s.pool.bs, |s.pool.ref|, r, r');
    ShapedKeep(s.pool.bs, |s.pool.ref|, s.reqs, [], k, r');
    KvQueues(net, s.(pool := q, mem := s.mem, reqs := s.reqs[k := r']), [k] + s.waiting, s.running[..|s.running| - 1]);
  }

  lemma PreemptTarget(net: Net, s: Sys, k: nat)
    requires SysInv(net, s) && k in s.running
    ensures k < |s.reqs| && s.reqs[k].status == Running && s.pool.bs >= 1
    ensures Shaped(s.pool.bs, |s.pool.ref|, s.reqs[k]) && s.reqs[k].draft == 0
  {
    hide KvInv;
    KvShape(net, s);
    QueueMember(s.reqs, s.waiting, s.running, k);
    ShapedMember(s.pool.bs, |s.pool.ref|, s.reqs, [], k);
  }

  lemma ShapedPreempt(bs: nat, blocks: nat, r: Req, r': Req)
    requires bs >= 1 && Shaped(bs, blocks, r) && Live(r)
    requires r' == r.(table := []).ResetKv().(status := Waiting)
    ensures Shaped(bs, blocks, r')
  {
    hide BlocksNeededFor;
  }

  /** An empty pass is a state between steps. */
  lemma EmptyPass(net: Net, pass: Pass)
    requires PassInv(net, pass, []) && pass.scheduled == []
    ensures SysInv(net, pass.s)
  {
    hide KvInv, Shaped, Planned;
    assert [] + pass.s.waiting == pass.s.waiting;
  }

  /** During the step that follows: the scheduled requests are covered, the others rest. */
  ghost predicate StepInv(net: Net, s: Sys, ids: seq<nat>) {
    && KvInv(net, s)
    && AllShaped(s.pool.bs, |s.pool.ref|, s.reqs, ids)
    && Queues(s.reqs, s.waiting, s.running)
  }

  /** `schedule` in any configuration: it never runs out of blocks half way, never gives up
      after preempting, and either returns a covered batch or finds no live request.  What is
      left is the error for a queue whose blocks are all pinned by others. */
  lemma {:induction false} ScheduleInvariant(net: Net, cfg: Config, propose: Proposer, s: Sys, bound: nat)
    requires SysInv(net, s) && bound > |s.running|
    ensures var outcome := ScheduleLoop(cfg, propose, s, bound);
      && !outcome.NotAdmitted? && !outcome.PoolError?
      && (outcome.Scheduled? ==> outcome.ids != [] && StepInv(net, outcome.s, outcome.ids))
      && (outcome.Idle? ==> SysInv(net, outcome.s) && outcome.s.running == [] == outcome.s.waiting)
      && (outcome.TooLarge? ==> SysInv(net, outcome.s) && outcome.s.running == [] && outcome.s.waiting != [])
    decreases bound
  {
    hide KvInv, AllShaped, SchedulePass, Preempt, Queues;
    var pass := SchedulePass(cfg, propose, s);
    SchedulePassInv(net, cfg, propose, s);
    RunningOnlyGrows(net, cfg, propose, s);
    assert [] + pass.s.waiting == pass.s.waiting;
    if pass.scheduled == [] {
      EmptyPass(net, pass);
      if pass.s.running != [] {
        PreemptInv(net, pass.s);
        ScheduleInvariant(net, cfg, propose, Preempt(pass.s), bound - 1);
      }
    }
  }

  /** Without an admission the running queue is what it was. */
  lemma RunningOnlyGrows(net: Net, cfg: Config, propose: Proposer, s: Sys)
    requires SysInv(net, s)
    ensures var pass := SchedulePass(cfg, propose, s);
      pass.Pass? && (pass.scheduled == [] ==> pass.s.running == s.running)
  {
    hide KvInv, AllShaped, ConsiderRunning, ScheduleWaiting;
    var start := Pass(s, [], cfg.maxBatched);
    assert [] + s.waiting == s.waiting;
    assert PassInv(net, start, []);
    ConsiderRunningInv(net, cfg, propose, start, [], s.running);
    var mid := ConsiderRunning(cfg, propose, start, s.running);
    WaitingKeepsRunning(net, cfg, mid, []);
  }

  lemma {:induction false} WaitingKeepsRunning(net: Net, cfg: Config, pass: Pass, deferred: seq<nat>)
    requires PassInv(net, pass, deferred)
    ensures var pass' := ScheduleWaiting(cfg, pass, deferred);
      pass'.Pass? && pass.scheduled <= pass'.scheduled
      && (pass'.scheduled == pass.scheduled ==> pass'.s.running == pass.s.running)
    decreases |pass.s.waiting|
  {
    hide ConsiderWaiting, Full, KvInv, AllShaped, Queues;
    WaitingInRange(net, pass, deferred);
    if pass.s.waiting != [] && !Full(cfg, pass) {
      var k := pass.s.waiting[0];
      var popped := pass.(s := pass.s.(waiting := pass.s.waiting[1..]));
      PopInv(net, pass, deferred);
      ConsiderWaitingInv(net, popped, deferred, k);
      ConsiderKeepsRunning(popped, k);
      var (pass', taken) := ConsiderWaiting(popped, k);
      WaitingKeepsRunning(net, cfg, pass', if taken then deferred else deferred + [k]);
    }
  }

  lemma ConsiderKeepsRunning(pass: Pass, k: nat)
    requires pass.Pass? && k < |pass.s.reqs|
    ensures var (pass', taken) := ConsiderWaiting(pass, k);
      pass'.Pass? && !taken ==> pass'.s.running == pass.s.running
  {
    hide Readmit, TokensToSchedule, DecrefAll, AllocateForTokens;
  }
}

/** An engine step does not touch a request that is paused or finished. */
module Steady {
  import opened Kv
  import opened BlockPool
  import opened Requests
  import opened Ownership
  import opened SpecDecode
  import opened System
  import opened SystemInv
  import opened ScheduleInv
  import opened Engine
  import opened Outcomes

  /** A stopped request is left exactly as it is; nobody moves to host memory. */
  predicate Steady(r: Req, r': Req) {
    && (!Live(r) ==> r' == r)
    && (r'.residency == r.residency || r'.residency == NoKv)
  }

  predicate AllSteady(reqs: seq<Req>, reqs': seq<Req>) {
    |reqs'| == |reqs| && forall k :: 0 <= k < |reqs| ==> Steady(reqs[k], reqs'[k])
  }

  lemma SteadyRefl(reqs: seq<Req>)
    ensures AllSteady(reqs, reqs)
  {
  }

  lemma SteadyTrans(a: seq<Req>, b: seq<Req>, c: seq<Req>)
    requires AllSteady(a, b) && AllSteady(b, c)
    ensures AllSteady(a, c)
  {
  }

  lemma SteadyAt(reqs: seq<Req>, k: nat, r: Req)
    requires k < |reqs| && Live(reqs[k]) && (r.residency == reqs[k].residency || r.residency == NoKv)
    ensures AllSteady(reqs, reqs[k := r])
  {
  }

  lemma PlanSteady(cfg: Config, propose: Proposer, p: Pool, r: Req, budget: nat)
    requires p.bs >= 1
    ensures PlanRunning(cfg, propose, p, r, budget).1.residency == r.residency
  {
    hide MaxAllocatable, Drafts, TokensToSchedule;
  }

  lemma ReserveSteady(pass: Pass, k: nat, p: Pool, r: Req, n: nat)
    requires pass.Pass? && k < |pass.s.reqs| && p.bs >= 1 && Live(pass.s.reqs[k])
    requires r.residency == pass.s.reqs[k].residency
    ensures Reserve(pass, k, p, r, n).Pass? ==>
      AllSteady(pass.s.reqs, Reserve(pass, k, p, r, n).s.reqs) && Reserve(pass, k, p, r, n).s.reqs[k].residency == r.residency
  {
    hide AllocateForTokens, CopyBlocks;
    AllocateAsks(p, r, n);
  }

  lemma ConsiderOneSteady(cfg: Config, propose: Proposer, pass: Pass, k: nat)
    requires pass.Pass? && k < |pass.s.reqs| && Live(pass.s.reqs[k])
    ensures ConsiderOne(cfg, propose, pass, k).Pass? ==> AllSteady(pass.s.reqs, ConsiderOne(cfg, propose, pass, k).s.reqs)
  {
    hide PlanRunning, Reserve;
    SteadyRefl(pass.s.reqs);
    if pass.s.pool.bs != 0 {
      PlanSteady(cfg, propose, pass.s.pool, pass.s.reqs[k], pass.budget);
      var (p, r, n) := PlanRunning(cfg, propose, pass.s.pool, pass.s.reqs[k], pass.budget);
      SteadyAt(pass.s.reqs, k, r);
      if n != 0 && p.bs != 0 {
        ReserveSteady(pass, k, p, r, n);
      }
    }
  }

  lemma {:induction false} ConsiderRunningSteady(net: Net, cfg: Config, propose: Proposer, pass: Pass, deferred: seq<nat>, ids: seq<nat>)
    requires PassInv(net, pass, deferred) && Distinct(ids)
    requires forall k :: k in ids ==> k in pass.s.running && k !in pass.scheduled
    ensures var pass' := ConsiderRunning(cfg, propose, pass, ids); pass'.Pass? && AllSteady(pass.s.reqs, pass'.s.reqs)
    decreases |ids|
  {
    hide ConsiderOne, AllSteady, KvInv, AllShaped, Queues;
    SteadyRefl(pass.s.reqs);
    if ids != [] {
      var k := ids[0];
      assert k in ids && forall j :: j in ids[1..] ==> j in ids && j != k;
      QueueMember(pass.s.reqs, deferred + pass.s.waiting, pass.s.running, k);
      ConsiderOneInv(net, cfg, propose, pass, deferred, k);
      ConsiderOneSteady(cfg, propose, pass, k);
      var pass1 := ConsiderOne(cfg, propose, pass, k);
      ConsiderRunningSteady(net, cfg, propose, pass1, deferred, ids[1..]);
      SteadyTrans(pass.s.reqs, pass1.s.reqs, ConsiderRunning(cfg, propose, pass1, ids[1..]).s.reqs);
    }
  }

  lemma ConsiderWaitingSteady(pass: Pass, k: nat)
    requires pass.Pass? && k < |pass.s.reqs| && Live(pass.s.reqs[k])
    ensures ConsiderWaiting(pass, k).0.Pass? ==> AllSteady(pass.s.reqs, ConsiderWaiting(pass, k).0.s.reqs)
  {
    hide Readmit, TokensToSchedule, Reserve, DecrefAll;
    var s := pass.s;
    if s.pool.bs != 0 {
      AttachAsks(s.pool, s.reqs[k]);
      var (p, r) := Readmit(s.pool, s.reqs[k]);
      if p.bs != 0 {
        var (p', n) := TokensToSchedule(p, r, pass.budget);
        if n != 0 && p'.bs != 0 {
          ReserveSteady(pass, k, p', r, n);
        }
      }
    }
  }

  lemma {:induction false} ScheduleWaitingSteady(net: Net, cfg: Config, pass: Pass, deferred: seq<nat>)
    requires PassInv(net, pass, deferred)
    ensures var pass' := ScheduleWaiting(cfg, pass, deferred); pass'.Pass? && AllSteady(pass.s.reqs, pass'.s.reqs)
    decreases |pass.s.waiting|
  {
    hide ConsiderWaiting, Full, AllSteady, KvInv, AllShaped, Queues;
    if pass.s.waiting != [] && !Full(cfg, pass) {
      WaitingInRange(net, pass, deferred);
      var k := pass.s.waiting[0];
      var popped := pass.(s := pass.s.(waiting := pass.s.waiting[1..]));
      PopInv(net, pass, deferred);
      ConsiderWaitingInv(net, popped, deferred, k);
      WaitingFacts(net, popped, deferred, k);
      ConsiderWaitingSteady(popped, k);
      var (pass', taken) := ConsiderWaiting(popped, k);
      var later := if taken then deferred else deferred + [k];
      ScheduleWaitingSteady(net, cfg, pass', later);
      SteadyTrans(pass.s.reqs, pass'.s.reqs, ScheduleWaiting(cfg, pass', later).s.reqs);
    } else {
      WaitingInRange(net, pass, deferred);
      SteadyRefl(pass.s.reqs);
    }
  }

  lemma PassSteady(net: Net, cfg: Config, propose: Proposer, s: Sys)
    requires SysInv(net, s)
    ensures var pass := SchedulePass(cfg, propose, s); pass.Pass? && AllSteady(s.reqs, pass.s.reqs)
  {
    hide KvInv, AllShaped, ConsiderRunning, ScheduleWaiting, AllSteady, Queues;
    var start := Pass(s, [], cfg.maxBatched);
    assert [] + s.waiting == s.waiting;
    assert PassInv(net, start, []);
    QueuesDistinct(s);
    ConsiderRunningInv(net, cfg, propose, start, [], s.running);
    ConsiderRunningSteady(net, cfg, propose, start, [], s.running);
    var mid := ConsiderRunning(cfg, propose, start, s.running);
    ScheduleWaitingSteady(net, cfg, mid, []);
    SteadyTrans(s.reqs, mid.s.reqs, ScheduleWaiting(cfg, mid, []).s.reqs);
  }

  lemma PreemptSteady(net: Net, s: Sys)
    requires SysInv(net, s) && s.running != []
    ensures AllSteady(s.reqs, Preempt(s).reqs)
  {
    hide SysInv, DecrefAll;
    var k := s.running[|s.running| - 1];
    PreemptTarget(net, s, k);
    SteadyAt(s.reqs, k, Strip(s.reqs[k]).(table := []).ResetKv().(status := Waiting));
  }

  lemma {:induction false} ScheduleSteady(net: Net, cfg: Config, propose: Proposer, s: Sys, bound: nat)
    requires SysInv(net, s) && bound > |s.running|
    ensures var outcome := ScheduleLoop(cfg, propose, s, bound);
      outcome.Scheduled? || outcome.Idle? || outcome.TooLarge? ==> AllSteady(s.reqs, outcome.s.reqs)
    decreases bound
  {
    hide KvInv, AllShaped, Queues, SchedulePass, Preempt, AllSteady;
    var pass := SchedulePass(cfg, propose, s);
    SchedulePassInv(net, cfg, propose, s);
    RunningOnlyGrows(net, cfg, propose, s);
    PassSteady(net, cfg, propose, s);
    if pass.scheduled == [] {
      assert [] + pass.s.waiting == pass.s.waiting;
      EmptyPass(net, pass);
      if pass.s.running != [] {
        PreemptInv(net, pass.s);
        PreemptSteady(net, pass.s);
        SteadyTrans(s.reqs, pass.s.reqs, Preempt(pass.s).reqs);
        ScheduleSteady(net, cfg, propose, Preempt(pass.s), bound - 1);
        var outcome := ScheduleLoop(cfg, propose, Preempt(pass.s), bound - 1);
        if outcome.Scheduled? || outcome.Idle? || outcome.TooLarge? {
          SteadyTrans(s.reqs, Preempt(pass.s).reqs, outcome.s.reqs);
        }
      }
    }
  }

  // ----- the batch -----

  lemma CompleteSteady(cfg: Config, s: Sys, k: nat)
    requires k < |s.reqs|
    ensures var s' := CompleteIfDone(cfg, s, k);
      && |s'.reqs| == |s.reqs| && (forall j :: 0 <= j < |s.reqs| && j != k ==> s'.reqs[j] == s.reqs[j])
      && (s'.reqs[k].residency == s.reqs[k].residency || s'.reqs[k].residency == NoKv)
  {
    hide DecrefAll, Without, FinishReason;
  }

  lemma PublishSteady(s: Sys, k: nat)
    requires k < |s.reqs| && s.pool.bs >= 1
    ensures var s' := Publish(s, k);
      && |s'.reqs| == |s.reqs| && (forall j :: 0 <= j < |s.reqs| && j != k ==> s'.reqs[j] == s.reqs[j])
      && s'.reqs[k].residency == s.reqs[k].residency
  {
    hide PublishLoop;
  }

  lemma CommitSteady(cfg: Config, s: Sys, k: nat, emitted: seq<Token>)
    requires k < |s.reqs| && s.pool.bs >= 1 && Live(s.reqs[k])
    ensures AllSteady(s.reqs, CommitOne(cfg, s, k, emitted).reqs)
  {
    hide TruncateTable, Publish, CompleteIfDone, BlocksNeededFor;
    var base := Strip(s.reqs[k]);
    var tokens := base.tokens + emitted;
    var keep := if tokens == [] then 0 else |tokens| - 1;
    var (p, r) := TruncateKv(s.pool, base.(tokens := tokens, computed := keep, scheduled := 0), keep);
    if p.bs != 0 {
      PublishSteady(SetReq(s, k, p, r), k);
      CompleteSteady(cfg, Publish(SetReq(s, k, p, r), k), k);
    }
  }

  lemma PostSteady(cfg: Config, s: Sys, k: nat, token: Option<Token>)
    requires k < |s.reqs| && s.pool.bs >= 1 && Live(s.reqs[k])
    ensures AllSteady(s.reqs, PostOne(cfg, s, k, token).reqs)
  {
    hide Publish, CompleteIfDone;
    var r := s.reqs[k];
    var moved := SetReq(s, k, s.pool, r.(computed := r.computed + r.scheduled, scheduled := 0));
    PublishSteady(moved, k);
    var s1 := Publish(moved, k);
    if token.Some? {
      CompleteSteady(cfg, SetReq(s1, k, s1.pool, Append(s1.reqs[k], [token.value])), k);
    }
  }

  lemma PlannedLive(bs: nat, blocks: nat, r: Req)
    requires bs >= 1 && Planned(bs, blocks, r)
    ensures Live(r)
  {
    hide BlocksNeededFor;
  }

  lemma {:induction false} CommitAllSteady(net: Net, cfg: Config, s: Sys, ids: seq<nat>, others: seq<nat>)
    requires StepInv(net, s, ids + others)
    requires forall k :: k in ids ==> Ready(net, s, k) && s.reqs[k].draft > 0
    ensures AllSteady(s.reqs, CommitAll(cfg, s, ids, MapRefChoices(net, s, ids)).0.reqs)
    decreases |ids|
  {
    hide KvInv, AllShaped, Queues, Ready, CommitOne, EmittedFor, RefChoices, GoodBurst, AllSteady, Planned;
    KvShape(net, s);
    SteadyRefl(s.reqs);
    if ids != [] {
      var k := ids[0];
      HeadApart(s.pool.bs, |s.pool.ref|, s.reqs, ids, others);
      PlannedLive(s.pool.bs, |s.pool.ref|, s.reqs[k]);
      assert k in ids && forall j :: j in ids[1..] ==> j in ids;
      RefBurst(net, cfg, s, k);
      var emitted := EmittedFor(cfg, s.reqs[k], RefChoices(net, s, k));
      CommitOneInv(net, cfg, s, ids[1..] + others, k, emitted);
      CommitSteady(cfg, s, k, emitted);
      var s1 := CommitOne(cfg, s, k, emitted);
      MapRefSame(net, s, s1, ids[1..]);
      ReadyOthers(net, s, s1, k);
      CommitAllSteady(net, cfg, s1, ids[1..], others);
      SteadyTrans(s.reqs, s1.reqs, CommitAll(cfg, s1, ids[1..], MapRefChoices(net, s1, ids[1..])).0.reqs);
    }
  }

  lemma {:induction false} PostAllSteady(net: Net, cfg: Config, s: Sys, ids: seq<nat>)
    requires StepInv(net, s, ids)
    requires forall k :: k in ids ==> Ready(net, s, k) && s.reqs[k].draft == 0
    ensures var s' := PostAll(cfg, s, ids, MapRefTokens(net, s, ids)).0; AllSteady(s.reqs, s'.reqs) && SameBut(s, s', ids)
    decreases |ids|
  {
    hide KvInv, AllShaped, Queues, Ready, PostOne, AllSteady, Planned;
    KvShape(net, s);
    SteadyRefl(s.reqs);
    if ids != [] {
      var k := ids[0];
      assert ids + [] == ids && ids[1..] + [] == ids[1..];
      HeadApart(s.pool.bs, |s.pool.ref|, s.reqs, ids, []);
      PlannedLive(s.pool.bs, |s.pool.ref|, s.reqs[k]);
      assert k in ids && forall j :: j in ids[1..] ==> j in ids;
      var token := RefToken(net, s, k);
      PostOneInv(net, cfg, s, ids[1..], k, token);
      PostSteady(cfg, s, k, token);
      var s1 := PostOne(cfg, s, k, token);
      MapRefSame(net, s, s1, ids[1..]);
      ReadyOthers(net, s, s1, k);
      PostAllSteady(net, cfg, s1, ids[1..]);
      var s2 := PostAll(cfg, s1, ids[1..], MapRefTokens(net, s1, ids[1..])).0;
      SteadyTrans(s.reqs, s1.reqs, s2.reqs);
      SameButStep(s, s1, s2, ids);
    }
  }

  lemma BatchSteady(net: Net, cfg: Config, s: Sys, ids: seq<nat>)
    requires StepInv(net, s, ids)
    ensures var s' := PagedBatch(net, cfg, s, ids).0;
      && AllSteady(s.reqs, s'.reqs)
      && forall k: nat :: k < |s.reqs| && k !in ids ==> s'.reqs[k] == s.reqs[k]
  {
    hide KvInv, AllShaped, Queues, RunAll, CommitAll, PostAll, MapTokens, MapRefTokens, MapChoices, MapRefChoices, SpecIds, NormalIds, AllSteady, Ready;
    KvShape(net, s);
    var specs, normal := SpecIds(s, ids), NormalIds(s, ids);
    Partition(s.pool.bs, |s.pool.ref|, s, ids);
    PartitionMembers(s, ids);
    PartitionDistinct(s, ids);
    AllPlanned(s.pool.bs, |s.pool.ref|, s.reqs, specs, normal);
    SpecHalf(net, cfg, s, specs, normal);
    assert forall k :: k in specs ==> k in specs + normal;
    RunAllInv(net, s, specs + normal, specs, {});
    var s1 := RunAll(net, s, specs);
    ChoicesAgree(net, s1, specs);
    CommitAllSteady(net, cfg, s1, specs, normal);
    var s2 := CommitAll(cfg, s1, specs, MapChoices(net, s1, specs)).0;
    NormalsUntouched(s1, s2, specs, normal);
    RunAllInv(net, s2, normal, normal, {});
    var s3 := RunAll(net, s2, normal);
    MapsAgree(net, s3, normal);
    PostAllSteady(net, cfg, s3, normal);
    SteadyTrans(s.reqs, s2.reqs, PostAll(cfg, s3, normal, MapTokens(net, s3, normal)).0.reqs);
  }

  /** Whatever a step does, a paused request keeps its history, its blocks and its marks. */
  lemma StepSteady(net: Net, cfg: Config, propose: Proposer, s: Sys)
    requires SysInv(net, s)
    ensures var result := PagedStep(net, cfg, propose, s);
      result.Stepped? || result.Refused? ==> AllSteady(s.reqs, result.s.reqs)
  {
    hide SysInv, StepInv, ScheduleLoop, PagedBatch, AllSteady;
    var bound := cfg.maxSeqs + |s.running| + |s.waiting| + 1;
    ScheduleInvariant(net, cfg, propose, s, bound);
    ScheduleSteady(net, cfg, propose, s, bound);
    var outcome := Schedule(cfg, propose, s);
    if outcome.Scheduled? {
      BatchSteady(net, cfg, outcome.s, outcome.ids);
      SteadyTrans(s.reqs, outcome.s.reqs, PagedBatch(net, cfg, outcome.s, outcome.ids).0.reqs);
    }
  }
}

/** The scheduler as the object it is: deques of requests, a block manager and requests that
    change in place.  Every method is proved equal to the corresponding function of the old
    state, and under the system invariant the allocator's error is never raised. */
module Schedulers {
  import opened Kv
  import opened BlockPool
  import opened Requests
  import opened Ownership
  import opened OwnershipSteps
  import opened SpecDecode
  import opened System
  import opened SystemInv
  import opened SchedulePlan
  import opened ScheduleInv
  import opened Geometry
  import opened BlockManagers

  function States(reqs: seq<Request>): (states: seq<Req>)
    reads reqs
    ensures |states| == |reqs| && forall i :: 0 <= i < |reqs| ==> states[i] == reqs[i].state
  {
    if reqs == [] then [] else States(reqs[..|reqs| - 1]) + [reqs[|reqs| - 1].state]
  }

  class Scheduler {
    const cfg: Config
    const manager: BlockManager
    const kv: PagedPool
    var reqs: seq<Request>
    var waiting: seq<nat>
    var running: seq<nat>

    constructor (cfg: Config, manager: BlockManager, kv: PagedPool)
      ensures Valid() && State() == Sys(manager.State(), kv.mem, [], [], []) && this.cfg == cfg
      ensures this.manager == manager && this.kv == kv
    {
      this.cfg, this.manager, this.kv := cfg, manager, kv;
      reqs, waiting, running := [], [], [];
    }

    ghost predicate Valid()
      reads this
    {
      forall i, j :: 0 <= i < j < |reqs| ==> reqs[i] != reqs[j]
    }

    function State(): Sys
      reads this, reqs, manager, manager.cache, kv
    {
      Sys(manager.State(), kv.mem, States(reqs), waiting, running)
    }

    twostate lemma OneChanged(k: nat)
      requires Valid() && k < |reqs| && reqs == old(reqs)
      requires forall i :: 0 <= i < |reqs| && i != k ==> reqs[i].state == old(reqs[i].state)
      ensures States(reqs) == old(States(reqs))[k := reqs[k].state]
    {
    }

    // ----- planning one request -----

    method StripDrafts(req: Request)
      modifies req
      ensures req.state == Strip(old(req.state))
    {
      var n := req.state.draft;
      if n == 0 || n > |req.state.tokens| {
        return;
      }
      req.state := req.state.(tokens := req.state.tokens[..|req.state.tokens| - n]);
      req.state := req.state.(draft := 0);
    }

    method CountTokens(req: Request, budget: nat) returns (n: nat)
      requires manager.bs >= 1
      modifies manager, manager.cache
      ensures (manager.State(), n) == TokensToSchedule(old(manager.State()), req.state, budget)
      ensures n <= budget
    {
      if req.state.Uncomputed() == 0 || budget == 0 {
        return 0;
      }
      n := manager.MaxAllocatableTokens(req, Min(req.state.Uncomputed(), budget));
    }

    method AttachDrafts(req: Request, propose: Proposer, budget: nat)
      requires manager.bs >= 1
      modifies manager, manager.cache, req
      ensures (manager.State(), req.state) == MaybeAttachDrafts(cfg, propose, old(manager.State()), old(req.state), budget)
    {
      hide MaxAllocatable, Drafts;
      if cfg.draftLimit == 0 || req.state.draft != 0 || !req.state.PrefillComplete() {
        return;
      }
      if req.state.Uncomputed() != 1 {
        return;
      }
      var drafts := Drafts(cfg, propose, req.state);
      var need := 1 + |drafts|;
      if drafts == [] || need > budget {
        return;
      }
      var n := manager.MaxAllocatableTokens(req, need);
      if n < need {
        return;
      }
      req.state := req.state.(tokens := req.state.tokens + drafts, draft := |drafts|);
    }

    /** The part of `_consider_running` that decides how many tokens a request gets. */
    method Plan(req: Request, propose: Proposer, budget: nat) returns (n: nat)
      requires manager.bs >= 1
      modifies manager, manager.cache, req
      ensures (manager.State(), req.state, n) == PlanRunning(cfg, propose, old(manager.State()), old(req.state), budget)
      ensures n <= budget
    {
      hide MaybeAttachDrafts, TokensToSchedule, Strip;
      AttachDrafts(req, propose, budget);
      n := CountTokens(req, budget);
      if n == 0 {
        StripDrafts(req);
      } else if req.state.draft != 0 && n != 1 + req.state.draft {
        StripDrafts(req);
        n := CountTokens(req, budget);
      }
    }

    // ----- one pass -----

    /** Reserves `n` tokens for a request and marks it scheduled. */
    method ReserveFor(k: nat, n: nat, ghost scheduled: seq<nat>, ghost budget: nat) returns (ok: bool)
      requires Valid() && k < |reqs| && manager.bs >= 1 && n <= budget
      modifies manager, manager.cache, kv, reqs[k]
      ensures Valid()
      ensures Grantable(old(manager.State()), old(reqs[k].state), n) ==> ok
      ensures ok ==>
        Pass(State(), scheduled + [k], budget - n) == Reserve(Pass(old(State()), scheduled, budget), k, old(manager.State()), old(reqs[k].state), n)
    {
      hide AllocateForTokens, Grantable, CopyBlocks;
      ok := manager.AllocateForSpan(reqs[k], n, kv);
      if ok {
        reqs[k].state := reqs[k].state.(scheduled := n);
        OneChanged(k);
      }
    }

    method ConsiderRequest(k: nat, propose: Proposer, scheduled: seq<nat>, budget: nat, ghost net: Net, ghost deferred: seq<nat>)
      returns (scheduled': seq<nat>, budget': nat)
      requires Valid() && PassInv(net, Pass(State(), scheduled, budget), deferred) && k in running && k !in scheduled
      modifies manager, manager.cache, kv, reqs
      ensures Valid() && reqs == old(reqs)
      ensures Pass(State(), scheduled', budget') == ConsiderOne(cfg, propose, Pass(old(State()), scheduled, budget), k)
    {
      hide PlanRunning, Reserve, PassInv, Grantable;
      ghost var pass := Pass(State(), scheduled, budget);
      RunningGrant(net, cfg, propose, pass, deferred, k);
      scheduled', budget' := scheduled, budget;
      if |scheduled| >= cfg.maxSeqs || budget == 0 {
        return;
      }
      var n := Plan(reqs[k], propose, budget);
      OneChanged(k);
      if n == 0 {
        return;
      }
      ReserveAfter(pass, k, manager.State(), reqs[k].state, n);
      var ok := ReserveFor(k, n, scheduled, budget);
      scheduled', budget' := scheduled + [k], budget - n;
    }

    /** `_consider_running` over the running queue. */
    method ScheduleRunning(propose: Proposer, ghost net: Net) returns (scheduled: seq<nat>, budget: nat)
      requires Valid() && SysInv(net, State())
      modifies manager, manager.cache, kv, reqs
      ensures Valid() && reqs == old(reqs)
      ensures Pass(State(), scheduled, budget) == ConsiderRunning(cfg, propose, Pass(old(State()), [], cfg.maxBatched), old(running))
      ensures PassInv(net, Pass(State(), scheduled, budget), [])
    {
      hide ConsiderOne, PassInv, SysInv;
      scheduled, budget := [], cfg.maxBatched;
      StartPass(net, State(), cfg.maxBatched);
      var pending := running;
      assert pending[0..] == pending;
      var i := 0;
      while i < |pending|
        invariant Valid() && reqs == old(reqs) && running == pending && waiting == old(waiting) && 0 <= i <= |pending|
        invariant ConsiderRunning(cfg, propose, Pass(State(), scheduled, budget), pending[i..])
               == ConsiderRunning(cfg, propose, Pass(old(State()), [], cfg.maxBatched), pending)
        invariant PassInv(net, Pass(State(), scheduled, budget), [])
        invariant forall j :: i <= j < |pending| ==> pending[j] !in scheduled
      {
        ghost var pass := Pass(State(), scheduled, budget);
        RunningDistinct(net, pass, []);
        ConsiderOneInv(net, cfg, propose, pass, [], pending[i]);
        assert pending[i..][1..] == pending[i + 1..];
        scheduled, budget := ConsiderRequest(pending[i], propose, scheduled, budget, net, []);
        i := i + 1;
      }
      assert pending[i..] == [];
    }

    /** The prefix attach of a readmission. */
    method AttachAgain(req: Request) returns (attached: bool)
      requires manager.bs >= 1
      modifies manager, manager.cache, req
      ensures (manager.State(), req.state) == Readmit(old(manager.State()), old(req.state))
      ensures attached <==> req.state.computed > 0 && old(req.state.table) == [] && old(req.state.computed) == 0
    {
      hide AttachCachedPrefix;
      attached := false;
      if manager.caching && req.state.table == [] && req.state.computed == 0 {
        manager.Attach(req);
        attached := req.state.computed > 0;
      }
    }

    /** Nothing could be scheduled: whatever the attach pinned is released again. */
    method Defer(k: nat, attached: bool)
      requires Valid() && k < |reqs|
      modifies manager, reqs[k]
      ensures Valid()
      ensures State() == if attached
                         then SetReq(old(State()), k, DecrefAll(old(manager.State()), old(reqs[k].state.table)), old(reqs[k].state).(table := []).ResetKv())
                         else old(State())
    {
      hide DecrefAll;
      if attached {
        manager.FreeTable(reqs[k]);
        reqs[k].state := reqs[k].state.ResetKv();
      }
      OneChanged(k);
      assert old(States(reqs))[k := old(reqs[k].state)] == old(States(reqs));
    }

    method Activate(k: nat)
      requires Valid() && k < |reqs|
      modifies this`running, reqs[k]
      ensures Valid()
      ensures State() == Activated(old(State()), k)
    {
      hide States, BlockManager.State;
      reqs[k].state := reqs[k].state.(status := Running);
      OneChanged(k);
      running := running + [k];
    }

    method Admit(k: nat, n: nat, ghost scheduled: seq<nat>, ghost budget: nat)
      requires Valid() && k < |reqs| && manager.bs >= 1 && n <= budget
      requires Grantable(manager.State(), reqs[k].state, n)
      modifies this`running, manager, manager.cache, kv, reqs[k]
      ensures Valid()
      ensures Pass(State(), scheduled + [k], budget - n)
        == AdmitReserved(Reserve(Pass(old(State()), scheduled, budget), k, old(manager.State()), old(reqs[k].state), n), k)
    {
      hide Grantable, Reserve, Activated;
      var _ := ReserveFor(k, n, scheduled, budget);
      Activate(k);
    }

    /** What a waiting request would get. */
    method Offer(k: nat, budget: nat) returns (attached: bool, n: nat)
      requires Valid() && k < |reqs| && manager.bs >= 1
      modifies manager, manager.cache, reqs[k]
      ensures Valid() && n <= budget
      ensures var (p, r) := Readmit(old(manager.State()), old(reqs[k].state));
        p.bs == manager.bs && TokensToSchedule(p, r, budget) == (manager.State(), n) && reqs[k].state == r
      ensures State() == SetReq(old(State()), k, manager.State(), reqs[k].state)
      ensures attached <==> reqs[k].state.computed > 0 && old(reqs[k].state.table) == [] && old(reqs[k].state.computed) == 0
    {
      hide Readmit, TokensToSchedule;
      attached := AttachAgain(reqs[k]);
      n := CountTokens(reqs[k], budget);
      OneChanged(k);
    }

    /** One popped waiting request. */
    method ConsiderPopped(k: nat, scheduled: seq<nat>, budget: nat, ghost net: Net, ghost deferred: seq<nat>)
      returns (taken: bool, scheduled': seq<nat>, budget': nat)
      requires Valid() && PassInv(net, Pass(State(), scheduled, budget), deferred + [k])
      modifies this`running, manager, manager.cache, kv, reqs
      ensures Valid() && k < |old(reqs)|
      ensures (Pass(State(), scheduled', budget'), taken) == ConsiderWaiting(Pass(old(State()), scheduled, budget), k)
    {
      hide Readmit, TokensToSchedule, Reserve, DecrefAll, PassInv, Grantable, States, Req.ResetKv;
      ghost var pass := Pass(State(), scheduled, budget);
      WaitingFacts(net, pass, deferred, k);
      WaitingGrant(net, pass, deferred, k);
      ConsiderWaitingParts(pass, k);
      taken, scheduled', budget' := false, scheduled, budget;
      var attached, n := Offer(k, budget);
      if n == 0 {
        Defer(k, attached);
      } else {
        ReserveAfter(pass, k, manager.State(), reqs[k].state, n);
        Admit(k, n, scheduled, budget);
        taken, scheduled', budget' := true, scheduled + [k], budget - n;
      }
    }

    method PopFront(scheduled0: seq<nat>, budget0: nat, ghost net: Net, deferred0: seq<nat>)
      returns (scheduled: seq<nat>, budget: nat, deferred: seq<nat>)
      requires Valid() && PassInv(net, Pass(State(), scheduled0, budget0), deferred0) && waiting != []
      modifies this`waiting, this`running, manager, manager.cache, kv, reqs
      ensures Valid() && reqs == old(reqs) && waiting == old(waiting[1..])
      ensures PassInv(net, Pass(State(), scheduled, budget), deferred)
      ensures WaitingStep(Pass(old(State()), scheduled0, budget0), deferred0) == (Pass(State(), scheduled, budget), deferred)
    {
      hide ConsiderWaiting, PassInv;
      ghost var pass := Pass(State(), scheduled0, budget0);
      PopInv(net, pass, deferred0);
      WaitingInRange(net, pass, deferred0);
      var k := waiting[0];
      waiting := waiting[1..];
      ConsiderWaitingInv(net, Pass(State(), scheduled0, budget0), deferred0, k);
      var taken;
      taken, scheduled, budget := ConsiderPopped(k, scheduled0, budget0, net, deferred0);
      deferred := if taken then deferred0 else deferred0 + [k];
    }

    /** `_schedule_waiting`: pops from the front, and puts what was deferred back in order. */
    method ScheduleQueue(scheduled0: seq<nat>, budget0: nat, ghost net: Net) returns (scheduled: seq<nat>, budget: nat)
      requires Valid() && PassInv(net, Pass(State(), scheduled0, budget0), [])
      modifies this`waiting, this`running, manager, manager.cache, kv, reqs
      ensures Valid()
      ensures Pass(State(), scheduled, budget) == ScheduleWaiting(cfg, Pass(old(State()), scheduled0, budget0), [])
    {
      hide WaitingStep, PassInv, ScheduleWaiting;
      scheduled, budget := scheduled0, budget0;
      var deferred: seq<nat> := [];
      while waiting != [] && |scheduled| < cfg.maxSeqs && budget > 0
        invariant Valid() && reqs == old(reqs)
        invariant ScheduleWaiting(cfg, Pass(State(), scheduled, budget), deferred) == ScheduleWaiting(cfg, Pass(old(State()), scheduled0, budget0), [])
        invariant PassInv(net, Pass(State(), scheduled, budget), deferred)
        decreases |waiting|
      {
        WaitingUnfolds(net, cfg, Pass(State(), scheduled, budget), deferred);
        scheduled, budget, deferred := PopFront(scheduled, budget, net, deferred);
      }
      WaitingUnfolds(net, cfg, Pass(State(), scheduled, budget), deferred);
      waiting := deferred + waiting;
    }

    // ----- the scheduling loop -----

    /** `_preempt` of the youngest running request. */
    method PreemptLast(ghost net: Net)
      requires Valid() && SysInv(net, State()) && running != []
      modifies this`waiting, this`running, manager, manager.cache, reqs
      ensures Valid()
      ensures State() == Preempt(old(State()))
    {
      hide SysInv, DecrefAll, Strip, States, BlockManager.State, Req.ResetKv;
      PreemptTarget(net, State(), running[|running| - 1]);
      var k := running[|running| - 1];
      running := running[..|running| - 1];
      Reclaim(k);
      waiting := [k] + waiting;
    }

    method Reclaim(k: nat)
      requires Valid() && k < |reqs|
      modifies manager, reqs[k]
      ensures Valid()
      ensures var r := Strip(old(reqs[k].state));
        State() == SetReq(old(State()), k, DecrefAll(old(manager.State()), r.table), r.(table := []).ResetKv().(status := Waiting))
    {
      hide DecrefAll, Strip;
      StripDrafts(reqs[k]);
      manager.FreeTable(reqs[k]);
      reqs[k].state := reqs[k].state.ResetKv().(status := Waiting);
      OneChanged(k);
    }

    /** Running requests first, then the queue. */
    method MakePass(propose: Proposer, ghost net: Net) returns (scheduled: seq<nat>)
      requires Valid() && SysInv(net, State())
      modifies this`waiting, this`running, manager, manager.cache, kv, reqs
      ensures Valid() && reqs == old(reqs)
      ensures SchedulePass(cfg, propose, old(State())).Pass? && SchedulePass(cfg, propose, old(State())).s == State()
      ensures SchedulePass(cfg, propose, old(State())).scheduled == scheduled
      ensures PassInv(net, SchedulePass(cfg, propose, old(State())), [])
      ensures scheduled == [] ==> running == old(running) && SysInv(net, State())
    {
      hide SchedulePass, SysInv, PassInv, ConsiderRunning, ScheduleWaiting;
      SchedulePassInv(net, cfg, propose, State());
      RunningOnlyGrows(net, cfg, propose, State());
      PassParts(cfg, propose, State());
      ghost var pass := SchedulePass(cfg, propose, State());
      var budget;
      scheduled, budget := ScheduleRunning(propose, net);
      scheduled, budget := ScheduleQueue(scheduled, budget, net);
      if scheduled == [] {
        EmptyPass(net, pass);
      }
    }

    /** `schedule`.  Under the invariant neither of the errors for a broken allocator or
        scheduler can be raised; `Unadmittable` is the remaining one. */
    method ScheduleBatch(propose: Proposer, ghost net: Net) returns (batch: Batch)
      requires Valid() && SysInv(net, State())
      modifies this`waiting, this`running, manager, manager.cache, kv, reqs
      ensures Valid()
      ensures match batch
        case Chosen(ids) => Schedule(cfg, propose, old(State())) == Scheduled(State(), ids)
        case Nothing => Schedule(cfg, propose, old(State())) == Idle(State())
        case Unadmittable => Schedule(cfg, propose, old(State())) == TooLarge(State())
    {
      hide SchedulePass, SysInv, PassInv, Preempt, ScheduleLoop, States, BlockManager.State;
      var bound: nat := cfg.maxSeqs + |running| + |waiting| + 1;
      while bound > |running|
        invariant Valid() && reqs == old(reqs) && SysInv(net, State())
        invariant bound > |running|
        invariant ScheduleLoop(cfg, propose, State(), bound) == Schedule(cfg, propose, old(State()))
        decreases bound
      {
        LoopUnfolds(cfg, propose, State(), bound);
        var scheduled := MakePass(propose, net);
        if scheduled != [] {
          return Chosen(scheduled);
        }
        if running == [] {
          return if waiting != [] then Unadmittable else Nothing;
        }
        PreemptInv(net, State());
        PreemptShrinks(net, State());
        PreemptLast(net);
        bound := bound - 1;
      }
    }

    // ----- after the forward pass -----

    /** Takes a finished request off the queues and returns its blocks. */
    method RetireRequest(k: nat)
      requires Valid() && k < |reqs|
      modifies this`waiting, this`running, manager, reqs[k]
      ensures Valid()
      ensures State() == Retire(old(State()), k, Finished)
    {
      hide DecrefAll, States, BlockManager.State, Req.ResetKv;
      manager.FreeTable(reqs[k]);
      reqs[k].state := reqs[k].state.(status := Finished).ResetKv();
      OneChanged(k);
      running, waiting := Without(running, k), Without(waiting, k);
    }

    method PauseRequest(k: nat)
      requires Valid() && k < |reqs|
      modifies this`running, reqs[k]
      ensures Valid()
      ensures State() == PauseReq(old(State()), k)
    {
      running := Without(running, k);
      reqs[k].state := reqs[k].state.(scheduled := 0, status := Paused);
      OneChanged(k);
    }

    /** `_complete_if_done`. */
    method Complete(k: nat) returns (done: bool)
      requires Valid() && k < |reqs|
      modifies this`waiting, this`running, manager, reqs[k]
      ensures Valid()
      ensures State() == CompleteIfDone(cfg, old(State()), k)
      ensures done <==> FinishReason(old(reqs[k].state), cfg.eos) != Unfinished
    {
      hide FinishReason, Retire, PauseReq;
      done := FinishReason(reqs[k].state, cfg.eos) != Unfinished;
      if done {
        if reqs[k].state.hold {
          PauseRequest(k);
        } else {
          RetireRequest(k);
        }
      }
    }

    method PublishRequest(k: nat)
      requires Valid() && k < |reqs| && manager.bs >= 1
      modifies manager, manager.cache, reqs[k]
      ensures Valid()
      ensures State() == Publish(old(State()), k)
    {
      hide PublishFullBlocks;
      manager.PublishFull(reqs[k]);
      OneChanged(k);
    }

    /** The span that was computed is now part of the computed history. */
    method Advance(k: nat)
      requires Valid() && k < |reqs| && manager.bs >= 1
      modifies manager, manager.cache, reqs[k]
      ensures Valid()
      ensures var r := old(reqs[k].state);
        State() == Publish(SetReq(old(State()), k, old(manager.State()), r.(computed := r.computed + r.scheduled, scheduled := 0)), k)
    {
      hide Publish;
      reqs[k].state := reqs[k].state.(computed := reqs[k].state.computed + reqs[k].state.scheduled, scheduled := 0);
      OneChanged(k);
      PublishRequest(k);
    }

    /** `postprocess` for one request; no token means its history is not computed yet. */
    method Postprocess(k: nat, token: Option<Token>)
      requires Valid() && k < |reqs| && manager.bs >= 1
      modifies this`waiting, this`running, manager, manager.cache, reqs[k]
      ensures Valid()
      ensures State() == PostOne(cfg, old(State()), k, token)
    {
      hide Publish, CompleteIfDone, Append, States, BlockManager.State;
      Advance(k);
      if token.Some? {
        AppendToken(k, token.value);
        var _ := Complete(k);
      }
    }

    method AppendToken(k: nat, token: Token)
      requires Valid() && k < |reqs|
      modifies reqs[k]
      ensures Valid()
      ensures State() == SetReq(old(State()), k, old(manager.State()), Append(old(reqs[k].state), [token]))
    {
      reqs[k].state := reqs[k].state.(tokens := reqs[k].state.tokens + [token]);
      OneChanged(k);
    }

    /** `commit_spec`: what was emitted replaces the drafts, and the table is cut back. */
    method ReplaceDrafts(k: nat, emitted: seq<Token>)
      requires Valid() && k < |reqs| && manager.bs >= 1
      modifies manager, reqs[k]
      ensures Valid()
      ensures var base := Strip(old(reqs[k].state)); var tokens := base.tokens + emitted; var keep := if tokens == [] then 0 else |tokens| - 1;
        var (p, r) := TruncateKv(old(manager.State()), base.(tokens := tokens, computed := keep, scheduled := 0), keep);
        State() == SetReq(old(State()), k, p, r)
    {
      hide TruncateKv, Strip;
      StripDrafts(reqs[k]);
      var tokens := reqs[k].state.tokens + emitted;
      var keep := if tokens == [] then 0 else |tokens| - 1;
      reqs[k].state := reqs[k].state.(tokens := tokens, computed := keep, scheduled := 0);
      manager.Truncate(reqs[k], keep);
      OneChanged(k);
    }

    /** `complete_after_spec`. */
    method PublishAndComplete(k: nat)
      requires Valid() && k < |reqs| && manager.bs >= 1
      modifies this`waiting, this`running, manager, manager.cache, reqs[k]
      ensures Valid()
      ensures State() == CompleteIfDone(cfg, Publish(old(State()), k), k)
    {
      hide Publish, CompleteIfDone;
      PublishRequest(k);
      var _ := Complete(k);
    }

    /** `commit_spec` and `complete_after_spec`. */
    method Commit(k: nat, emitted: seq<Token>)
      requires Valid() && k < |reqs| && manager.bs >= 1
      modifies this`waiting, this`running, manager, manager.cache, reqs[k]
      ensures Valid()
      ensures State() == CommitOne(cfg, old(State()), k, emitted)
    {
      hide TruncateKv, Strip, Publish, CompleteIfDone;
      ReplaceDrafts(k, emitted);
      PublishAndComplete(k);
    }

    // ----- sessions -----

    /** `add_request` with its prefix attach; `false` means the request could never fit. */
    method AddNew(req: Request) returns (ok: bool)
      requires Valid() && manager.bs >= 1 && req !in reqs && req.state.status == Waiting
      modifies this`reqs, this`waiting, manager, manager.cache, req
      ensures Valid()
      ensures match AddRequest(old(State()), old(req.state))
        case None => !ok && State() == old(State())
        case Some(s) => ok && State() == s
    {
      hide AttachCachedPrefix, BlocksNeededFor;
      ok := BlocksNeededFor(|req.state.tokens| + req.state.maxTokens, manager.bs) <= |manager.ref|;
      if !ok {
        return;
      }
      AttachNew(req);
      Enlist(req);
    }

    method AttachNew(req: Request)
      requires manager.bs >= 1 && req !in reqs
      modifies manager, manager.cache, req
      ensures var r := old(req.state).(status := Waiting);
        (manager.State(), req.state) == if manager.caching then AttachCachedPrefix(old(manager.State()), r) else (old(manager.State()), r)
      ensures States(reqs) == old(States(reqs))
    {
      hide AttachCachedPrefix;
      req.state := req.state.(status := Waiting);
      if manager.caching {
        manager.Attach(req);
      }
    }

    method Enlist(req: Request)
      requires Valid() && req !in reqs
      modifies this`reqs, this`waiting
      ensures Valid()
      ensures State() == old(State()).(reqs := old(States(reqs)) + [req.state], waiting := old(waiting) + [|old(reqs)|])
    {
      waiting := waiting + [|reqs|];
      assert (reqs + [req])[..|reqs|] == reqs;
      reqs := reqs + [req];
    }

    method Requeue(k: nat, r: Req)
      requires Valid() && k < |reqs|
      modifies this`waiting, reqs[k]
      ensures Valid()
      ensures State() == SetReq(old(State()), k, old(manager.State()), r).(waiting := old(waiting) + [k])
    {
      reqs[k].state := r;
      OneChanged(k);
      waiting := waiting + [k];
    }

    /** `resume`: capacity is checked before anything changes. */
    method ResumeRequest(k: nat, suffix: seq<Token>, maxTokens: nat, hold: bool, policy: int, stops: set<Token>, ignoreEos: bool)
      returns (ok: bool)
      requires Valid() && manager.bs >= 1
      modifies this`waiting, reqs
      ensures Valid()
      ensures match Resume(old(State()), k, suffix, maxTokens, hold, policy, stops, ignoreEos)
        case None => !ok && State() == old(State())
        case Some(s) => ok && State() == s
    {
      hide BlocksNeededFor;
      if k >= |reqs| || reqs[k].state.status != Paused || suffix == [] || maxTokens < 1 {
        return false;
      }
      var r := reqs[k].state;
      if r.table != [] && (r.epoch != manager.epoch || r.computed == 0) {
        return false;
      }
      ok := BlocksNeededFor(|r.tokens| + |suffix| + maxTokens, manager.bs) <= |manager.ref|;
      if ok {
        var tokens := r.tokens + suffix;
        Requeue(k, r.(tokens := tokens, prompt := |tokens|, maxTokens := maxTokens, hold := hold, policy := policy,
                      stops := stops, ignoreEos := ignoreEos, status := Waiting));
      }
    }

    /** `release`: from whatever queue it is in. */
    method ReleaseRequest(k: nat)
      requires Valid()
      modifies this`waiting, this`running, manager, reqs
      ensures Valid()
      ensures State() == Release(old(State()), k)
    {
      hide Retire;
      if k < |reqs| && reqs[k].state.status != Finished {
        RetireRequest(k);
      }
    }

    // ----- dropping all KV -----

    method ReleaseAllTables()
      requires Valid()
      modifies manager, reqs
      ensures SameFrame(old(manager.State()), manager.State())
      ensures forall j :: 0 <= j < |reqs| ==> reqs[j].state == old(reqs[j].state).(table := []).ResetKv()
    {
      hide DecrefAll, Req.ResetKv, States, SameFrame;
      var i := 0;
      FrameSame(manager.State(), manager.State(), manager.State());
      while i < |reqs|
        invariant 0 <= i <= |reqs|
        invariant SameFrame(old(manager.State()), manager.State())
        invariant forall j :: 0 <= j < i ==> reqs[j].state == old(reqs[j].state).(table := []).ResetKv()
        invariant forall j :: i <= j < |reqs| ==> reqs[j].state == old(reqs[j].state)
      {
        ghost var before := manager.State();
        DecrefAllFrame(before, reqs[i].state.table);
        manager.FreeTable(reqs[i]);
        reqs[i].state := reqs[i].state.ResetKv();
        FrameSame(old(manager.State()), before, manager.State());
        i := i + 1;
      }
    }

    /** `invalidate_all_kv`: every table is released, then the pool is rebuilt. */
    method InvalidateAllKv()
      requires Valid()
      modifies manager, manager.cache, reqs
      ensures Valid()
      ensures State() == InvalidateAll(old(State()))
    {
      hide States, Req.ResetKv;
      ReleaseAllTables();
      ghost var released := manager.State();
      manager.Reset();
      ResetSame(old(manager.State()), released);
      assert States(reqs) == InvalidateAll(old(State())).reqs;
    }

    /** `park_live_sessions`, after the tables are gone. */
    method ParkLiveSessions()
      requires Valid()
      modifies this`waiting, this`running, reqs
      ensures Valid()
      ensures State() == ParkAll(old(State()))
    {
      hide States;
      waiting, running := [], [];
      var i := 0;
      while i < |reqs|
        invariant 0 <= i <= |reqs| && waiting == [] && running == []
        invariant forall j :: 0 <= j < i ==> reqs[j].state == ParkOne(old(reqs[j].state))
        invariant forall j :: i <= j < |reqs| ==> reqs[j].state == old(reqs[j].state)
      {
        if reqs[i].state.status != Finished {
          reqs[i].state := reqs[i].state.(status := Paused);
        }
        i := i + 1;
      }
      assert States(reqs) == ParkAll(old(State())).reqs;
    }
  }

  lemma FrameSame(p: Pool, q: Pool, q': Pool)
    ensures SameFrame(p, p)
    ensures SameFrame(p, q) && SameFrame(q, q') ==> SameFrame(p, q')
  {
  }

  /** A rebuilt pool depends on the old one's shape and epoch only. */
  lemma ResetSame(p: Pool, q: Pool)
    requires SameFrame(p, q)
    ensures ResetPool(q) == ResetPool(p)
  {
  }

  function ParkOne(r: Req): Req {
    if r.status == Finished then r else r.(status := Paused)
  }

  function WaitingStep(pass: Pass, deferred: seq<nat>): (Pass, seq<nat>) {
    if pass.PoolExhausted? || pass.s.waiting == [] || pass.s.waiting[0] >= |pass.s.reqs| then (pass, deferred)
    else
      var k := pass.s.waiting[0];
      var (pass', taken) := ConsiderWaiting(pass.(s := pass.s.(waiting := pass.s.waiting[1..])), k);
      (pass', if taken then deferred else deferred + [k])
  }

  lemma WaitingUnfolds(net: Net, cfg: Config, pass: Pass, deferred: seq<nat>)
    requires PassInv(net, pass, deferred)
    ensures pass.s.waiting != [] ==> pass.s.waiting[0] < |pass.s.reqs|
    ensures ScheduleWaiting(cfg, pass, deferred)
         == if pass.s.waiting == [] || Full(cfg, pass) then pass.(s := pass.s.(waiting := deferred + pass.s.waiting))
            else ScheduleWaiting(cfg, WaitingStep(pass, deferred).0, WaitingStep(pass, deferred).1)
  {
    hide KvInv, AllShaped, Queues, ConsiderWaiting;
    WaitingInRange(net, pass, deferred);
    if pass.s.waiting != [] && !Full(cfg, pass) {
      var popped := pass.(s := pass.s.(waiting := pass.s.waiting[1..]));
      PopInv(net, pass, deferred);
      ConsiderWaitingInv(net, popped, deferred, pass.s.waiting[0]);
    }
  }

  lemma LoopUnfolds(cfg: Config, propose: Proposer, s: Sys, bound: nat)
    requires bound > 0
    ensures var pass := SchedulePass(cfg, propose, s);
      pass.Pass? ==>
        ScheduleLoop(cfg, propose, s, bound) ==
          if pass.scheduled != [] then Scheduled(pass.s, pass.scheduled)
          else if pass.s.running != [] then ScheduleLoop(cfg, propose, Preempt(pass.s), bound - 1)
          else if pass.s.waiting != [] then TooLarge(pass.s)
          else Idle(pass.s)
  {
    hide SchedulePass, Preempt;
  }

  datatype Batch = Chosen(ids: seq<nat>) | Nothing | Unadmittable

  lemma PassParts(cfg: Config, propose: Proposer, s: Sys)
    ensures SchedulePass(cfg, propose, s) == ScheduleWaiting(cfg, ConsiderRunning(cfg, propose, Pass(s, [], cfg.maxBatched), s.running), [])
  {
    hide ScheduleWaiting, ConsiderRunning;
  }

  lemma PreemptShrinks(net: Net, s: Sys)
    requires SysInv(net, s) && s.running != []
    ensures |Preempt(s).running| == |s.running| - 1
  {
    hide SysInv, DecrefAll;
    PreemptTarget(net, s, s.running[|s.running| - 1]);
  }

  function AdmitReserved(pass: Pass, k: nat): Pass {
    if pass.PoolExhausted? || k >= |pass.s.reqs| then pass
    else pass.(s := Activated(pass.s, k))
  }

  /** A popped request in two parts: what it would get, and what is done about it. */
  lemma ConsiderWaitingParts(pass: Pass, k: nat)
    requires pass.Pass? && k < |pass.s.reqs| && pass.s.pool.bs >= 1
    ensures var (p, r) := Readmit(pass.s.pool, pass.s.reqs[k]); p.bs == pass.s.pool.bs ==>
      var (p', n) := TokensToSchedule(p, r, pass.budget); p'.bs == p.bs ==>
        var attached := r.computed > 0 && pass.s.reqs[k].table == [] && pass.s.reqs[k].computed == 0;
        var mid := SetReq(pass.s, k, p', r);
        ConsiderWaiting(pass, k) ==
          if n > 0 then (AdmitReserved(Reserve(pass, k, p', r, n), k), true)
          else if attached then (pass.(s := SetReq(mid, k, DecrefAll(p', r.table), r.(table := []).ResetKv())), false)
          else (pass.(s := mid), false)
  {
    hide Readmit, TokensToSchedule, DecrefAll, AllocateForTokens, CopyBlocks;
    var (p, r) := Readmit(pass.s.pool, pass.s.reqs[k]);
    if p.bs == pass.s.pool.bs {
      var (p', n) := TokensToSchedule(p, r, pass.budget);
      if n == 0 {
        var r' := r.(table := []).ResetKv();
        assert pass.s.reqs[k := r][k := r'] == pass.s.reqs[k := r'];
      }
    }
  }

  lemma WaitingGrant(net: Net, pass: Pass, deferred: seq<nat>, k: nat)
    requires PassInv(net, pass, deferred + [k])
    ensures k < |pass.s.reqs| && pass.s.pool.bs >= 1
    ensures var (p, r) := Readmit(pass.s.pool, pass.s.reqs[k]);
      p.bs == pass.s.pool.bs &&
      var (p', n) := TokensToSchedule(p, r, pass.budget);
      p'.bs == p.bs && (n > 0 ==> Grantable(p', r, n))
  {
    hide Local, KvInv, Rest, AllShaped, Queues, Frame, Fits, PublishReady, Shaped, Available, Readmit, TokensToSchedule, Grantable;
    var s := pass.s;
    KvShape(net, s);
    WaitingFacts(net, pass, deferred, k);
    var r0, rest := s.reqs[k], Rest(s.reqs, k);
    At(net, s, k);
    ReadmitStep(net, s.pool, s.mem, rest, r0);
    var (p, r) := Readmit(s.pool, r0);
    TokensStep(net, p, s.mem, rest, r, pass.budget);
    var (p', n) := TokensToSchedule(p, r, pass.budget);
    if n > 0 {
      PublishReadySame(p, s.mem, p', rest, r);
      ReserveStep(net, p', s.mem, rest, r, n);
    }
  }

  lemma StartPass(net: Net, s: Sys, budget: nat)
    requires SysInv(net, s)
    ensures PassInv(net, Pass(s, [], budget), [])
  {
    hide KvInv, AllShaped, Queues;
    assert [] + s.waiting == s.waiting;
  }

  lemma RunningDistinct(net: Net, pass: Pass, deferred: seq<nat>)
    requires PassInv(net, pass, deferred)
    ensures Distinct(pass.s.running) && forall i :: 0 <= i < |pass.s.running| ==> pass.s.running[i] in pass.s.running
  {
    hide KvInv, AllShaped;
  }

  lemma ReserveAfter(pass: Pass, k: nat, p: Pool, r: Req, n: nat)
    requires pass.Pass? && k < |pass.s.reqs| && p.bs >= 1
    ensures Reserve(pass.(s := SetReq(pass.s, k, p, r)), k, p, r, n) == Reserve(pass, k, p, r, n)
  {
    hide AllocateForTokens, CopyBlocks;
  }

  lemma RunningGrant(net: Net, cfg: Config, propose: Proposer, pass: Pass, deferred: seq<nat>, k: nat)
    requires PassInv(net, pass, deferred) && k in pass.s.running && k !in pass.scheduled
    ensures k < |pass.s.reqs| && pass.s.pool.bs >= 1
    ensures !Full(cfg, pass) ==>
      var (p, r, n) := PlanRunning(cfg, propose, pass.s.pool, pass.s.reqs[k], pass.budget);
      p.bs == pass.s.pool.bs && (n > 0 ==> Grantable(p, r, n))
  {
    hide Local, KvInv, Rest, AllShaped, Queues, Frame, Fits, PlanRunning, PublishReady, Shaped, Available, Grantable;
    var s := pass.s;
    KvShape(net, s);
    QueueMember(s.reqs, deferred + s.waiting, s.running, k);
    ShapedMember(s.pool.bs, |s.pool.ref|, s.reqs, pass.scheduled, k);
    if !Full(cfg, pass) {
      var rest := Rest(s.reqs, k);
      At(net, s, k);
      PlanRunningStep(net, cfg, propose, s.pool, s.mem, rest, s.reqs[k], pass.budget);
      var (p, r, n) := PlanRunning(cfg, propose, s.pool, s.reqs[k], pass.budget);
      if n > 0 {
        PlanKeepsStatus(s.reqs[k], r);
        RunningReady(net, p, s.mem, rest, r);
        ReserveStep(net, p, s.mem, rest, r, n);
      }
    }
  }
}

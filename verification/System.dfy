/** The engine's host state and everything the scheduler does to it, as functions. */
module System {
  import opened Kv
  import opened BlockPool
  import opened Requests
  import opened Ownership
  import opened SpecDecode

  datatype Config = Config(maxSeqs: nat, maxBatched: nat, draftLimit: nat, eos: Option<Token>)

  /** Requests are indexed by id and never removed; a paused request is one whose status says
      so.  `waiting` and `running` are the two deques, front first. */
  datatype Sys = Sys(pool: Pool, mem: Memory, reqs: seq<Req>, waiting: seq<nat>, running: seq<nat>)

  /** Whatever the drafter answers for a request, uncut. */
  type Proposer = Req -> seq<Token>

  // ----- admission -----

  /** `Scheduler.add` followed by the engine's prefix attach; refused when the whole request
      could never fit in the pool. */
  function AddRequest(s: Sys, r: Req): Option<Sys>
    requires s.pool.bs >= 1
  {
    if BlocksNeededFor(|r.tokens| + r.maxTokens, s.pool.bs) > |s.pool.ref| then None
    else
      var r1 := r.(status := Waiting);
      var (q, r2) := if s.pool.caching then AttachCachedPrefix(s.pool, r1) else (s.pool, r1);
      Some(s.(pool := q, reqs := s.reqs + [r2], waiting := s.waiting + [|s.reqs|]))
  }

  // ----- one scheduling pass -----

  function Strip(r: Req): Req {
    if r.draft == 0 || r.draft > |r.tokens| then r
    else r.(tokens := r.tokens[..|r.tokens| - r.draft], draft := 0)
  }

  /** `_tokens_to_schedule`. */
  function TokensToSchedule(p: Pool, r: Req, budget: nat): (Pool, nat)
    requires p.bs >= 1
  {
    if r.Uncomputed() == 0 || budget == 0 then (p, 0)
    else MaxAllocatable(p, r, Min(r.Uncomputed(), budget))
  }

  function Drafts(cfg: Config, propose: Proposer, r: Req): seq<Token> {
    var all := propose(r);
    all[..Min(|all|, Min(cfg.draftLimit, OutputRoom(r)))]
  }

  /** `_maybe_attach_spec_drafts`. */
  function MaybeAttachDrafts(cfg: Config, propose: Proposer, p: Pool, r: Req, budget: nat): (Pool, Req)
    requires p.bs >= 1
  {
    if cfg.draftLimit == 0 || r.draft != 0 || !r.PrefillComplete() || r.Uncomputed() != 1 then (p, r)
    else
      var drafts := Drafts(cfg, propose, r);
      var need := 1 + |drafts|;
      if drafts == [] || need > budget then (p, r)
      else
        var (q, n) := MaxAllocatable(p, r, need);
        if n < need then (q, r)
        else (q, r.(tokens := r.tokens + drafts, draft := |drafts|))
  }

  /** How many tokens a running request gets, and the request with or without its drafts. */
  function PlanRunning(cfg: Config, propose: Proposer, p: Pool, r: Req, budget: nat): (Pool, Req, nat)
    requires p.bs >= 1
  {
    var (p1, r1) := MaybeAttachDrafts(cfg, propose, p, r, budget);
    if p1.bs != p.bs then (p1, r1, 0)
    else
      var (p2, n) := TokensToSchedule(p1, r1, budget);
      if n == 0 then (p2, Strip(r1), 0)
      else if r1.draft == 0 || n == 1 + r1.draft then (p2, r1, n)
      else if p2.bs != p.bs then (p2, r1, 0)
      else
        var (p3, n') := TokensToSchedule(p2, Strip(r1), budget);
        (p3, Strip(r1), n')
  }

  /** A pass in progress.  `Exhausted` is the allocator's "KV pool exhausted" error. */
  datatype Pass = PoolExhausted | Pass(s: Sys, scheduled: seq<nat>, budget: nat)

  function CopyBlocks(mem: Memory, copies: seq<(nat, nat)>): Memory
    decreases |copies|
  {
    if copies == [] then mem
    else
      var (src, dst) := copies[0];
      CopyBlocks(if src < |mem| && dst < |mem| then mem[dst := mem[src]] else mem, copies[1..])
  }

  function SetReq(s: Sys, k: nat, p: Pool, r: Req): Sys
    requires k < |s.reqs|
  {
    s.(pool := p, reqs := s.reqs[k := r])
  }

  /** Reserves `n` tokens for request `k` and marks it scheduled. */
  function Reserve(pass: Pass, k: nat, p: Pool, r: Req, n: nat): Pass
    requires pass.Pass? && k < |pass.s.reqs| && p.bs >= 1
  {
    match AllocateForTokens(p, r, n)
    case Exhausted(_) => PoolExhausted
    case Allocated(q, r', copies) =>
      var s := SetReq(pass.s, k, q, r'.(scheduled := n));
      Pass(s.(mem := CopyBlocks(s.mem, copies)), pass.scheduled + [k],
           if pass.budget >= n then pass.budget - n else 0)
  }

  predicate Full(cfg: Config, pass: Pass)
    requires pass.Pass?
  {
    |pass.scheduled| >= cfg.maxSeqs || pass.budget == 0
  }

  function ConsiderOne(cfg: Config, propose: Proposer, pass: Pass, k: nat): Pass {
    if pass.PoolExhausted? || k >= |pass.s.reqs| || pass.s.pool.bs == 0 || Full(cfg, pass) then pass
    else
      var (p, r, n) := PlanRunning(cfg, propose, pass.s.pool, pass.s.reqs[k], pass.budget);
      if n == 0 || p.bs == 0 then pass.(s := SetReq(pass.s, k, p, r))
      else Reserve(pass, k, p, r, n)
  }

  /** `_consider_running` over the given ids. */
  function ConsiderRunning(cfg: Config, propose: Proposer, pass: Pass, ids: seq<nat>): Pass
    decreases |ids|
  {
    if ids == [] then pass
    else ConsiderRunning(cfg, propose, ConsiderOne(cfg, propose, pass, ids[0]), ids[1..])
  }

  /** The prefix attach that readmission may do. */
  function Readmit(p: Pool, r: Req): (Pool, Req)
    requires p.bs >= 1
  {
    if p.caching && r.table == [] && r.computed == 0 then AttachCachedPrefix(p, r) else (p, r)
  }

  /** A waiting request joins the running ones. */
  function Activated(s: Sys, k: nat): Sys
    requires k < |s.reqs|
  {
    s.(reqs := s.reqs[k := s.reqs[k].(status := Running)], running := s.running + [k])
  }

  /** One popped waiting request: scheduled, or deferred with nothing newly pinned. */
  function ConsiderWaiting(pass: Pass, k: nat): (Pass, bool)
    requires pass.Pass? && k < |pass.s.reqs|
  {
    var s := pass.s;
    if s.pool.bs == 0 then (pass, false)
    else
      var (p, r) := Readmit(s.pool, s.reqs[k]);
      if p.bs == 0 then (pass, false)
      else
        var (p', n) := TokensToSchedule(p, r, pass.budget);
        if n == 0 || p'.bs == 0 then
          if r.computed > 0 && s.reqs[k].table == [] && s.reqs[k].computed == 0 then
            (pass.(s := SetReq(s, k, DecrefAll(p', r.table), r.(table := []).ResetKv())), false)
          else (pass.(s := SetReq(s, k, p', r)), false)
        else
          var pass' := Reserve(pass, k, p', r, n);
          if pass'.PoolExhausted? then (pass', true)
          else
            (pass'.(s := Activated(pass'.s, k)), true)
  }

  /** `_schedule_waiting`: pops until the batch is full, then puts the deferred ones back. */
  function ScheduleWaiting(cfg: Config, pass: Pass, deferred: seq<nat>): Pass
    decreases if pass.Pass? then |pass.s.waiting| else 0
  {
    if pass.PoolExhausted? then pass
    else if pass.s.waiting == [] || Full(cfg, pass) || pass.s.waiting[0] >= |pass.s.reqs| then
      pass.(s := pass.s.(waiting := deferred + pass.s.waiting))
    else
      var k := pass.s.waiting[0];
      var popped := pass.(s := pass.s.(waiting := pass.s.waiting[1..]));
      var (pass', taken) := ConsiderWaiting(popped, k);
      if pass'.PoolExhausted? then pass'
      else ScheduleWaiting(cfg, pass', if taken then deferred else deferred + [k])
  }

  function SchedulePass(cfg: Config, propose: Proposer, s: Sys): Pass {
    ScheduleWaiting(cfg, ConsiderRunning(cfg, propose, Pass(s, [], cfg.maxBatched), s.running), [])
  }

  // ----- the scheduling loop -----

  /** Frees the youngest running request and puts it at the head of the queue. */
  function Preempt(s: Sys): Sys
    requires s.running != []
  {
    var k := s.running[|s.running| - 1];
    if k >= |s.reqs| then s
    else
      var r := Strip(s.reqs[k]);
      s.(pool := DecrefAll(s.pool, r.table),
         reqs := s.reqs[k := r.(table := []).ResetKv().(status := Waiting)],
         running := s.running[..|s.running| - 1], waiting := [k] + s.waiting)
  }

  datatype Outcome =
    | Scheduled(s: Sys, ids: seq<nat>)
    | Idle(s: Sys)
    | PoolError          // "KV pool exhausted"
    | TooLarge(s: Sys)   // "waiting request exceeds the KV pool even after shrinking the chunk"
    | NotAdmitted        // "scheduler could not admit a batch after preemption"

  /** `schedule`, with `bound` iterations left. */
  function ScheduleLoop(cfg: Config, propose: Proposer, s: Sys, bound: nat): Outcome
    decreases bound
  {
    if bound == 0 then NotAdmitted
    else
      var pass := SchedulePass(cfg, propose, s);
      if pass.PoolExhausted? then PoolError
      else if pass.scheduled != [] then Scheduled(pass.s, pass.scheduled)
      else if pass.s.running != [] then ScheduleLoop(cfg, propose, Preempt(pass.s), bound - 1)
      else if pass.s.waiting != [] then TooLarge(pass.s)
      else Idle(pass.s)
  }

  function Schedule(cfg: Config, propose: Proposer, s: Sys): Outcome {
    ScheduleLoop(cfg, propose, s, cfg.maxSeqs + |s.running| + |s.waiting| + 1)
  }

  // ----- after the forward pass -----

  /** The engine forgets a finished request; its history is kept here, its KV is not. */
  function Retire(s: Sys, k: nat, status: Status): Sys
    requires k < |s.reqs|
  {
    var r := s.reqs[k];
    s.(pool := DecrefAll(s.pool, r.table), reqs := s.reqs[k := r.(table := [], status := status).ResetKv()],
       running := Without(s.running, k), waiting := Without(s.waiting, k))
  }

  function PauseReq(s: Sys, k: nat): Sys
    requires k < |s.reqs|
  {
    s.(reqs := s.reqs[k := s.reqs[k].(scheduled := 0, status := Paused)], running := Without(s.running, k))
  }

  /** `_complete_if_done`. */
  function CompleteIfDone(cfg: Config, s: Sys, k: nat): Sys
    requires k < |s.reqs|
  {
    if FinishReason(s.reqs[k], cfg.eos) == Unfinished then s
    else if s.reqs[k].hold then PauseReq(s, k)
    else Retire(s, k, Finished)
  }

  function Publish(s: Sys, k: nat): Sys
    requires k < |s.reqs| && s.pool.bs >= 1
  {
    var (p, r) := PublishFullBlocks(s.pool, s.reqs[k]);
    SetReq(s, k, p, r)
  }

  /** `postprocess` for one request. */
  function PostOne(cfg: Config, s: Sys, k: nat, token: Option<Token>): Sys
    requires k < |s.reqs| && s.pool.bs >= 1
  {
    var r := s.reqs[k];
    var s1 := Publish(SetReq(s, k, s.pool, r.(computed := r.computed + r.scheduled, scheduled := 0)), k);
    if token.None? then s1
    else CompleteIfDone(cfg, SetReq(s1, k, s1.pool, Append(s1.reqs[k], [token.value])), k)
  }

  /** `commit_spec` and `complete_after_spec`. */
  function CommitOne(cfg: Config, s: Sys, k: nat, emitted: seq<Token>): Sys
    requires k < |s.reqs| && s.pool.bs >= 1
  {
    var base := Strip(s.reqs[k]);
    var tokens := base.tokens + emitted;
    var keep := if tokens == [] then 0 else |tokens| - 1;
    var (p, r) := TruncateKv(s.pool, base.(tokens := tokens, computed := keep, scheduled := 0), keep);
    if p.bs == 0 then s else CompleteIfDone(cfg, Publish(SetReq(s, k, p, r), k), k)
  }

  // ----- sessions -----

  /** `Scheduler.resume`: a paused request continues with a new prompt suffix; its KV stays. */
  function Resume(s: Sys, k: nat, suffix: seq<Token>, maxTokens: nat, hold: bool, policy: int, stops: set<Token>, ignoreEos: bool): Option<Sys>
    requires s.pool.bs >= 1
  {
    if k >= |s.reqs| || s.reqs[k].status != Paused || suffix == [] || maxTokens < 1 then None
    else
      var r := s.reqs[k];
      if r.table != [] && (r.epoch != s.pool.epoch || r.computed == 0) then None
      else if BlocksNeededFor(|r.tokens| + |suffix| + maxTokens, s.pool.bs) > |s.pool.ref| then None
      else
        var tokens := r.tokens + suffix;
        Some(s.(reqs := s.reqs[k := r.(tokens := tokens, prompt := |tokens|, maxTokens := maxTokens, hold := hold,
                                      policy := policy, stops := stops, ignoreEos := ignoreEos, status := Waiting)],
                waiting := s.waiting + [k]))
  }

  /** `finish_request` for a registered request. */
  function Release(s: Sys, k: nat): Sys {
    if k >= |s.reqs| || s.reqs[k].status == Finished then s else Retire(s, k, Finished)
  }

  // ----- invalidation -----

  function ResetPool(p: Pool): Pool {
    Pool(p.bs, p.caching, seq(|p.ref|, i requires 0 <= i < |p.ref| => i), seq(|p.ref|, _ => 0), Cache(map[], []), p.epoch + 1)
  }

  /** `invalidate_all_kv`: every table is dropped, then the pool is rebuilt.  Queues and
      statuses stay. */
  function InvalidateAll(s: Sys): Sys {
    s.(pool := ResetPool(s.pool),
       reqs := seq(|s.reqs|, i requires 0 <= i < |s.reqs| => s.reqs[i].(table := []).ResetKv()))
  }

  /** `park_live_sessions`: every live request becomes paused. */
  function ParkAll(s: Sys): Sys {
    s.(waiting := [], running := [],
       reqs := seq(|s.reqs|, i requires 0 <= i < |s.reqs| =>
                 if s.reqs[i].status == Finished then s.reqs[i] else s.reqs[i].(status := Paused)))
  }
}

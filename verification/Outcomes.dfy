/** What a request ends up with is decided by the request alone: no scheduling, sharing,
    preemption or speculation changes it, and nothing reaches a history unreported. */
module Outcomes {
  import opened Kv
  import opened BlockPool
  import opened Requests
  import opened Ownership
  import opened SpecDecode
  import opened System
  import opened SystemInv
  import opened ScheduleInv
  import opened Engine
  import opened Runs

  // ----- the part of a request that decides its outcome -----

  /** The same question: history, limits, stops and sampling policy. */
  predicate SameAsk(r: Req, r': Req) {
    && r'.tokens == r.tokens && r'.prompt == r.prompt && r'.policy == r.policy
    && r'.maxTokens == r.maxTokens && r'.minTokens == r.minTokens
    && r'.ignoreEos == r.ignoreEos && r'.stops == r.stops && r'.draft == r.draft && r'.hold == r.hold
  }

  lemma {:induction false} PlainRunSame(next: seq<Token> -> Token, r: Req, r': Req, eos: Option<Token>)
    requires Decoding(r) && SameAsk(r, r')
    ensures PlainRun(next, r', eos).tokens == PlainRun(next, r, eos).tokens
    decreases r.maxTokens - (|r.tokens| - r.prompt)
  {
    var r1, r1' := Append(r, [next(r.tokens)]), Append(r', [next(r.tokens)]);
    assert FinishReason(r1, eos) == FinishReason(r1', eos) by { FinishSame(r1, r1', eos); }
    if FinishReason(r1, eos) == Unfinished {
      PlainRunSame(next, r1, r1', eos);
    }
  }

  lemma FinishSame(r: Req, r': Req, eos: Option<Token>)
    requires SameAsk(r, r')
    ensures FinishReason(r', eos) == FinishReason(r, eos)
  {
  }

  /** The history a request will have when it stops: for a live one, greedy decoding one token
      at a time from where it is now; a stopped one has it already. */
  ghost function FinalTokens(net: Net, eos: Option<Token>, r: Req): seq<Token> {
    if Live(r) && Decoding(Strip(r)) then PlainRun(Target(net, r.policy), Strip(r), eos).tokens else Strip(r).tokens
  }

  /** Scheduling changes no history and stops nobody. */
  predicate Unanswered(reqs: seq<Req>, reqs': seq<Req>) {
    && |reqs'| == |reqs|
    && forall k :: 0 <= k < |reqs| ==> SameAsk(Strip(reqs[k]), Strip(reqs'[k])) && Live(reqs[k]) == Live(reqs'[k])
  }

  lemma UnansweredAt(reqs: seq<Req>, k: nat, r: Req)
    requires k < |reqs| && SameAsk(Strip(reqs[k]), Strip(r)) && Live(reqs[k]) == Live(r)
    ensures Unanswered(reqs, reqs[k := r])
  {
  }

  lemma PlanAsks(cfg: Config, propose: Proposer, p: Pool, r: Req, budget: nat)
    requires p.bs >= 1
    ensures var r' := PlanRunning(cfg, propose, p, r, budget).1;
      SameAsk(Strip(r), Strip(r')) && r'.status == r.status
  {
    hide MaxAllocatable, Drafts, TokensToSchedule;
    var drafts := Drafts(cfg, propose, r);
    assert (r.tokens + drafts)[..|r.tokens + drafts| - |drafts|] == r.tokens;
  }

  lemma AllocateAsks(p: Pool, r: Req, n: nat)
    requires p.bs >= 1
    ensures AllocateForTokens(p, r, n).Allocated? ==>
      var r' := AllocateForTokens(p, r, n).req; r' == r.(epoch := r'.epoch, table := r'.table)
  {
    hide CanAllocate, Grow, CowRange, BlocksNeededFor;
  }

  lemma AttachAsks(p: Pool, r: Req)
    requires p.bs >= 1
    ensures var r' := Readmit(p, r).1;
      r' == r.(cached := r'.cached, published := r'.published, parent := r'.parent, computed := r'.computed, table := r'.table)
  {
    hide AttachLoop;
  }

  lemma ReserveAsks(pass: Pass, k: nat, p: Pool, r: Req, n: nat)
    requires pass.Pass? && k < |pass.s.reqs| && p.bs >= 1
    requires SameAsk(Strip(pass.s.reqs[k]), Strip(r)) && Live(pass.s.reqs[k]) == Live(r)
    ensures Reserve(pass, k, p, r, n).Pass? ==> Unanswered(pass.s.reqs, Reserve(pass, k, p, r, n).s.reqs)
    ensures Reserve(pass, k, p, r, n).Pass? ==> Reserve(pass, k, p, r, n).s.reqs[k].status == r.status
  {
    hide AllocateForTokens, CopyBlocks;
    AllocateAsks(p, r, n);
  }

  lemma ConsiderOneAsks(cfg: Config, propose: Proposer, pass: Pass, k: nat)
    requires pass.Pass?
    ensures ConsiderOne(cfg, propose, pass, k).Pass? ==>
      Unanswered(pass.s.reqs, ConsiderOne(cfg, propose, pass, k).s.reqs)
  {
    hide PlanRunning, Reserve, SameAsk;
    if k < |pass.s.reqs| && pass.s.pool.bs != 0 {
      PlanAsks(cfg, propose, pass.s.pool, pass.s.reqs[k], pass.budget);
      var (p, r, n) := PlanRunning(cfg, propose, pass.s.pool, pass.s.reqs[k], pass.budget);
      UnansweredAt(pass.s.reqs, k, r);
      if n != 0 && p.bs != 0 {
        ReserveAsks(pass, k, p, r, n);
      }
    }
    forall j | 0 <= j < |pass.s.reqs|
      ensures SameAsk(Strip(pass.s.reqs[j]), Strip(pass.s.reqs[j]))
    {
      SameAskRefl(Strip(pass.s.reqs[j]));
    }
  }

  lemma SameAskRefl(r: Req)
    ensures SameAsk(r, r)
  {
  }

  lemma UnansweredTrans(a: seq<Req>, b: seq<Req>, c: seq<Req>)
    requires Unanswered(a, b) && Unanswered(b, c)
    ensures Unanswered(a, c)
  {
  }

  lemma {:induction false} ConsiderRunningAsks(cfg: Config, propose: Proposer, pass: Pass, ids: seq<nat>)
    requires pass.Pass?
    ensures ConsiderRunning(cfg, propose, pass, ids).Pass? ==>
      Unanswered(pass.s.reqs, ConsiderRunning(cfg, propose, pass, ids).s.reqs)
    decreases |ids|
  {
    hide ConsiderOne, SameAsk;
    if ids == [] {
      forall j | 0 <= j < |pass.s.reqs|
        ensures SameAsk(Strip(pass.s.reqs[j]), Strip(pass.s.reqs[j]))
      {
        SameAskRefl(Strip(pass.s.reqs[j]));
      }
    } else {
      ConsiderOneAsks(cfg, propose, pass, ids[0]);
      var pass1 := ConsiderOne(cfg, propose, pass, ids[0]);
      if pass1.Pass? {
        ConsiderRunningAsks(cfg, propose, pass1, ids[1..]);
        if ConsiderRunning(cfg, propose, pass1, ids[1..]).Pass? {
          UnansweredTrans(pass.s.reqs, pass1.s.reqs, ConsiderRunning(cfg, propose, pass1, ids[1..]).s.reqs);
        }
      } else {
        StaysExhausted(cfg, propose, ids[1..]);
      }
    }
  }

  lemma {:induction false} StaysExhausted(cfg: Config, propose: Proposer, ids: seq<nat>)
    ensures ConsiderRunning(cfg, propose, PoolExhausted, ids) == PoolExhausted
  {
    if ids != [] {
      StaysExhausted(cfg, propose, ids[1..]);
    }
  }

  lemma ActivatedAsks(reqs: seq<Req>, s: Sys, k: nat)
    requires Unanswered(reqs, s.reqs) && k < |s.reqs| && Live(s.reqs[k])
    ensures Unanswered(reqs, Activated(s, k).reqs)
  {
    assert SameAsk(Strip(reqs[k]), Strip(s.reqs[k]));
  }

  lemma DeferredAsks(s: Sys, k: nat, p: Pool, r: Req)
    requires k < |s.reqs| && Live(s.reqs[k]) && s.reqs[k].draft == 0
    requires r == s.reqs[k].(cached := r.cached, published := r.published, parent := r.parent, computed := r.computed, table := r.table)
    ensures Unanswered(s.reqs, SetReq(s, k, p, r).reqs)
    ensures Unanswered(s.reqs, SetReq(s, k, p, r.(table := []).ResetKv()).reqs)
    ensures SameAsk(Strip(s.reqs[k]), Strip(r)) && Live(r)
  {
    UnansweredAt(s.reqs, k, r);
    UnansweredAt(s.reqs, k, r.(table := []).ResetKv());
  }

  lemma ConsiderWaitingAsks(pass: Pass, k: nat)
    requires pass.Pass? && k < |pass.s.reqs| && Live(pass.s.reqs[k]) && pass.s.reqs[k].draft == 0
    ensures ConsiderWaiting(pass, k).0.Pass? ==> Unanswered(pass.s.reqs, ConsiderWaiting(pass, k).0.s.reqs)
  {
    hide Readmit, TokensToSchedule, Reserve, DecrefAll, Unanswered, Activated, SetReq, SameAsk, Strip;
    var s := pass.s;
    UnansweredRefl(s.reqs);
    if s.pool.bs != 0 {
      AttachAsks(s.pool, s.reqs[k]);
      var (p, r) := Readmit(s.pool, s.reqs[k]);
      if p.bs != 0 {
        var (p', n) := TokensToSchedule(p, r, pass.budget);
        DeferredAsks(s, k, p', r);
        DeferredAsks(s, k, DecrefAll(p', r.table), r);
        if n != 0 && p'.bs != 0 {
          ReserveAsks(pass, k, p', r, n);
          var pass' := Reserve(pass, k, p', r, n);
          if pass'.Pass? {
            ReservedLive(pass, k, p', r, n);
            ActivatedAsks(s.reqs, pass'.s, k);
          }
        }
      }
    }
  }

  lemma ReservedLive(pass: Pass, k: nat, p: Pool, r: Req, n: nat)
    requires pass.Pass? && k < |pass.s.reqs| && p.bs >= 1 && Live(r)
    ensures Reserve(pass, k, p, r, n).Pass? ==>
      k < |Reserve(pass, k, p, r, n).s.reqs| && (Reserve(pass, k, p, r, n).s.reqs[k].status == r.status ==> Live(Reserve(pass, k, p, r, n).s.reqs[k]))
  {
    hide AllocateForTokens, CopyBlocks;
  }

  lemma {:induction false} ScheduleWaitingAsks(net: Net, cfg: Config, pass: Pass, deferred: seq<nat>)
    requires PassInv(net, pass, deferred)
    ensures ScheduleWaiting(cfg, pass, deferred).Pass? ==>
      Unanswered(pass.s.reqs, ScheduleWaiting(cfg, pass, deferred).s.reqs)
    decreases |pass.s.waiting|
  {
    hide ConsiderWaiting, Full, SameAsk, KvInv, AllShaped, Queues, Strip;
    if pass.s.waiting != [] && !Full(cfg, pass) {
      WaitingInRange(net, pass, deferred);
      var k := pass.s.waiting[0];
      var popped := pass.(s := pass.s.(waiting := pass.s.waiting[1..]));
      PopInv(net, pass, deferred);
      ConsiderWaitingInv(net, popped, deferred, k);
      WaitingFacts(net, popped, deferred, k);
      ConsiderWaitingAsks(popped, k);
      var (pass', taken) := ConsiderWaiting(popped, k);
      var later := if taken then deferred else deferred + [k];
      ScheduleWaitingAsks(net, cfg, pass', later);
      if ScheduleWaiting(cfg, pass', later).Pass? {
        UnansweredTrans(pass.s.reqs, pass'.s.reqs, ScheduleWaiting(cfg, pass', later).s.reqs);
      }
    } else {
      UnansweredRefl(pass.s.reqs);
    }
  }

  lemma UnansweredRefl(reqs: seq<Req>)
    ensures Unanswered(reqs, reqs)
  {
  }

  lemma PassAsks(net: Net, cfg: Config, propose: Proposer, s: Sys)
    requires SysInv(net, s)
    ensures var pass := SchedulePass(cfg, propose, s); pass.Pass? && Unanswered(s.reqs, pass.s.reqs)
  {
    hide KvInv, AllShaped, ConsiderRunning, ScheduleWaiting, Unanswered, Queues;
    var start := Pass(s, [], cfg.maxBatched);
    assert [] + s.waiting == s.waiting;
    assert PassInv(net, start, []);
    QueuesDistinct(s);
    ConsiderRunningInv(net, cfg, propose, start, [], s.running);
    ConsiderRunningAsks(cfg, propose, start, s.running);
    var mid := ConsiderRunning(cfg, propose, start, s.running);
    ScheduleWaitingInv(net, cfg, mid, []);
    ScheduleWaitingAsks(net, cfg, mid, []);
    UnansweredTrans(s.reqs, mid.s.reqs, ScheduleWaiting(cfg, mid, []).s.reqs);
  }

  lemma QueuesDistinct(s: Sys)
    requires Queues(s.reqs, s.waiting, s.running)
    ensures Distinct(s.running)
  {
  }

  lemma PreemptAsks(net: Net, s: Sys)
    requires SysInv(net, s) && s.running != []
    ensures Unanswered(s.reqs, Preempt(s).reqs)
  {
    hide SysInv, DecrefAll;
    var k := s.running[|s.running| - 1];
    PreemptTarget(net, s, k);
    UnansweredAt(s.reqs, k, Strip(s.reqs[k]).(table := []).ResetKv().(status := Waiting));
  }

  lemma {:induction false} ScheduleAsks(net: Net, cfg: Config, propose: Proposer, s: Sys, bound: nat)
    requires SysInv(net, s) && bound > |s.running|
    ensures var outcome := ScheduleLoop(cfg, propose, s, bound);
      outcome.Scheduled? || outcome.Idle? || outcome.TooLarge? ==> Unanswered(s.reqs, outcome.s.reqs)
    decreases bound
  {
    hide KvInv, AllShaped, Queues, SchedulePass, Preempt, Unanswered;
    var pass := SchedulePass(cfg, propose, s);
    SchedulePassInv(net, cfg, propose, s);
    RunningOnlyGrows(net, cfg, propose, s);
    PassAsks(net, cfg, propose, s);
    if pass.scheduled == [] {
      assert [] + pass.s.waiting == pass.s.waiting;
      EmptyPass(net, pass);
      if pass.s.running != [] {
        PreemptInv(net, pass.s);
        PreemptAsks(net, pass.s);
        UnansweredTrans(s.reqs, pass.s.reqs, Preempt(pass.s).reqs);
        ScheduleAsks(net, cfg, propose, Preempt(pass.s), bound - 1);
        var outcome := ScheduleLoop(cfg, propose, Preempt(pass.s), bound - 1);
        if outcome.Scheduled? || outcome.Idle? || outcome.TooLarge? {
          UnansweredTrans(s.reqs, Preempt(pass.s).reqs, outcome.s.reqs);
        }
      }
    }
  }

  // ----- a step answers exactly what it reports -----

  /** What the step reported for one request. */
  function Harvest(emitted: seq<Emission>, k: nat): seq<Token> {
    if emitted == [] then []
    else (if emitted[0].id == k then emitted[0].tokens else []) + Harvest(emitted[1..], k)
  }

  /** Every history grew by exactly what was reported for it, and nobody's final history
      changed. */
  ghost predicate Answered(net: Net, eos: Option<Token>, reqs: seq<Req>, reqs': seq<Req>, emitted: seq<Emission>) {
    && |reqs'| == |reqs|
    && forall k: nat :: k < |reqs| ==>
         && Strip(reqs'[k]).tokens == Strip(reqs[k]).tokens + Harvest(emitted, k)
         && FinalTokens(net, eos, reqs'[k]) == FinalTokens(net, eos, reqs[k])
  }

  /** Only request `k` answered. */
  ghost predicate AnsweredOne(net: Net, eos: Option<Token>, s: Sys, s': Sys, k: nat, tokens: seq<Token>) {
    && SameOthers(s, s', k) && k < |s.reqs|
    && Strip(s'.reqs[k]).tokens == Strip(s.reqs[k]).tokens + tokens
    && FinalTokens(net, eos, s'.reqs[k]) == FinalTokens(net, eos, s.reqs[k])
  }

  lemma HarvestCons(k: nat, tokens: seq<Token>, more: seq<Emission>, j: nat)
    ensures Harvest([Emission(k, tokens)] + more, j) == (if j == k then tokens else []) + Harvest(more, j)
  {
    assert ([Emission(k, tokens)] + more)[1..] == more;
  }

  lemma AnsweredCons(net: Net, eos: Option<Token>, s: Sys, s1: Sys, s2: Sys, k: nat, tokens: seq<Token>, more: seq<Emission>)
    requires AnsweredOne(net, eos, s, s1, k, tokens) && Answered(net, eos, s1.reqs, s2.reqs, more)
    ensures Answered(net, eos, s.reqs, s2.reqs, [Emission(k, tokens)] + more)
  {
    hide FinalTokens, Strip, Harvest;
    var all := [Emission(k, tokens)] + more;
    forall j: nat | j < |s.reqs|
      ensures Strip(s2.reqs[j]).tokens == Strip(s.reqs[j]).tokens + Harvest(all, j)
    {
      HarvestCons(k, tokens, more, j);
      Reassociate(Strip(s.reqs[j]).tokens, if j == k then tokens else [], Harvest(more, j));
      assert j != k ==> s1.reqs[j] == s.reqs[j];
      assert Strip(s.reqs[j]).tokens + [] == Strip(s.reqs[j]).tokens;
    }
  }

  lemma Reassociate<T>(a: seq<T>, b: seq<T>, c: seq<T>)
    ensures (a + b) + c == a + (b + c)
  {
  }

  /** Completion moves a request only if it is done. */
  lemma CompleteAsks(cfg: Config, s: Sys, k: nat)
    requires k < |s.reqs|
    ensures var s' := CompleteIfDone(cfg, s, k);
      && SameOthers(s, s', k)
      && SameAsk(s.reqs[k].(draft := 0), s'.reqs[k].(draft := 0)) && (s.reqs[k].draft == 0 ==> s'.reqs[k].draft == 0)
      && (FinishReason(s.reqs[k], cfg.eos) == Unfinished ==> s' == s)
      && (FinishReason(s.reqs[k], cfg.eos) != Unfinished ==> !Live(s'.reqs[k]))
  {
    hide DecrefAll, Without, FinishReason;
  }

  /** Greedy tokens that do not finish the request early leave its final history alone. */
  lemma GreedyAnswer(net: Net, eos: Option<Token>, r: Req, out: seq<Token>, r': Req)
    requires Live(r) && Decoding(Strip(r)) && 1 <= |out| <= OutputRoom(Strip(r))
    requires GreedyFrom(Target(net, r.policy), Strip(r).tokens + out, |Strip(r).tokens|)
    requires forall j :: 0 <= j < |out| - 1 ==> !IsStop(Strip(r), eos, out[j])
    requires r'.draft == 0 && SameAsk(Append(Strip(r), out), r')
    requires Live(r') <==> FinishReason(Append(Strip(r), out), eos) == Unfinished
    ensures FinalTokens(net, eos, r') == FinalTokens(net, eos, r) && Strip(r').tokens == Strip(r).tokens + out
  {
    hide PlainRun, FinishReason;
    var next := Target(net, r.policy);
    PlainFollows(next, Strip(r), eos, out);
    if Live(r') {
      PlainRunSame(next, Append(Strip(r), out), r', eos);
    }
  }

  lemma {:induction false} TruncateTableSize(p: Pool, table: seq<nat>, needed: nat)
    ensures TruncateTable(p, table, needed).0.bs == p.bs
    decreases |table|
  {
    if |table| > needed {
      TruncateTableSize(Decref(p, table[|table| - 1]), table[..|table| - 1], needed);
    }
  }

  lemma PublishAsks(s: Sys, k: nat)
    requires k < |s.reqs| && s.pool.bs >= 1
    ensures var s' := Publish(s, k);
      && SameOthers(s, s', k) && SameAsk(s.reqs[k], s'.reqs[k]) && s'.reqs[k].status == s.reqs[k].status
  {
    hide PublishLoop;
  }

  /** A committed burst is an answer. */
  lemma CommitAnswers(net: Net, cfg: Config, s: Sys, k: nat)
    requires k < |s.reqs| && s.pool.bs >= 1 && Planned(s.pool.bs, |s.pool.ref|, s.reqs[k]) && s.reqs[k].draft > 0
    ensures var emitted := EmittedFor(cfg, s.reqs[k], RefChoices(net, s, k));
      var s' := CommitOne(cfg, s, k, emitted);
      AnsweredOne(net, cfg.eos, s, s', k, emitted)
  {
    hide BlocksNeededFor, Burst, TruncateTable, Publish, CompleteIfDone, FinalTokens, FinishReason, Choices, Verified, Trimmed;
    var r := s.reqs[k];
    var emitted := EmittedFor(cfg, r, RefChoices(net, s, k));
    RefBurst(net, cfg, s, k);
    BurstIsGreedy(Target(net, r.policy), Strip(r), cfg.eos, DraftTokens(r));
    var base := Strip(r);
    var tokens := base.tokens + emitted;
    var keep := |tokens| - 1;
    var (p, r1) := TruncateKv(s.pool, base.(tokens := tokens, computed := keep, scheduled := 0), keep);
    TruncateTableSize(s.pool, base.table, BlocksNeededFor(keep, s.pool.bs));
    PublishAsks(SetReq(s, k, p, r1), k);
    var s1 := Publish(SetReq(s, k, p, r1), k);
    CompleteAsks(cfg, s1, k);
    FinishSame(Append(base, emitted), s1.reqs[k], cfg.eos);
    GreedyAnswer(net, cfg.eos, r, emitted, CompleteIfDone(cfg, s1, k).reqs[k]);
  }

  /** An ordinary row is an answer: one token if the history was completely computed, and
      nothing before that. */
  lemma PostAnswers(net: Net, cfg: Config, s: Sys, k: nat)
    requires k < |s.reqs| && s.pool.bs >= 1 && Planned(s.pool.bs, |s.pool.ref|, s.reqs[k]) && s.reqs[k].draft == 0
    ensures var token := RefToken(net, s, k);
      AnsweredOne(net, cfg.eos, s, PostOne(cfg, s, k, token), k, if token.Some? then [token.value] else [])
  {
    hide BlocksNeededFor, Publish, CompleteIfDone, FinishReason, PlainRun, RefNext;
    var r := s.reqs[k];
    var token := RefToken(net, s, k);
    var moved := SetReq(s, k, s.pool, r.(computed := r.computed + r.scheduled, scheduled := 0));
    var s1 := Publish(moved, k);
    PublishAsks(moved, k);
    assert SameAsk(r, s1.reqs[k]) && s1.reqs[k].status == r.status;
    if token.None? {
      assert r.tokens + [] == r.tokens;
      if Decoding(r) {
        PlainRunSame(Target(net, r.policy), r, s1.reqs[k], cfg.eos);
      }
    } else {
      var out := [token.value];
      var s2 := SetReq(s1, k, s1.pool, Append(s1.reqs[k], out));
      CompleteAsks(cfg, s2, k);
      FinishSame(Append(r, out), s2.reqs[k], cfg.eos);
      assert (r.tokens + out)[..|r.tokens|] == r.tokens;
      GreedyAnswer(net, cfg.eos, r, out, CompleteIfDone(cfg, s2, k).reqs[k]);
    }
  }

  lemma {:induction false} CommitAllAnswers(net: Net, cfg: Config, s: Sys, ids: seq<nat>, others: seq<nat>)
    requires StepInv(net, s, ids + others)
    requires forall k :: k in ids ==> Ready(net, s, k) && s.reqs[k].draft > 0
    ensures var (s', emitted) := CommitAll(cfg, s, ids, MapRefChoices(net, s, ids));
      Answered(net, cfg.eos, s.reqs, s'.reqs, emitted)
    decreases |ids|
  {
    hide KvInv, AllShaped, Queues, Ready, CommitOne, EmittedFor, RefChoices, GoodBurst, Answered;
    KvShape(net, s);
    if ids == [] {
      AnsweredNothing(net, cfg.eos, s.reqs);
    } else {
      var k := ids[0];
      HeadApart(s.pool.bs, |s.pool.ref|, s.reqs, ids, others);
      assert k in ids && forall j :: j in ids[1..] ==> j in ids;
      RefBurst(net, cfg, s, k);
      var emitted := EmittedFor(cfg, s.reqs[k], RefChoices(net, s, k));
      CommitOneInv(net, cfg, s, ids[1..] + others, k, emitted);
      CommitAnswers(net, cfg, s, k);
      var s1 := CommitOne(cfg, s, k, emitted);
      MapRefSame(net, s, s1, ids[1..]);
      ReadyOthers(net, s, s1, k);
      CommitAllAnswers(net, cfg, s1, ids[1..], others);
      var (s2, more) := CommitAll(cfg, s1, ids[1..], MapRefChoices(net, s1, ids[1..]));
      AnsweredCons(net, cfg.eos, s, s1, s2, k, emitted, more);
    }
  }

  lemma AnsweredNothing(net: Net, eos: Option<Token>, reqs: seq<Req>)
    ensures Answered(net, eos, reqs, reqs, [])
  {
    assert forall k: nat :: k < |reqs| ==> Strip(reqs[k]).tokens + [] == Strip(reqs[k]).tokens;
  }

  lemma {:induction false} PostAllAnswers(net: Net, cfg: Config, s: Sys, ids: seq<nat>)
    requires StepInv(net, s, ids)
    requires forall k :: k in ids ==> Ready(net, s, k) && s.reqs[k].draft == 0
    ensures var (s', emitted) := PostAll(cfg, s, ids, MapRefTokens(net, s, ids));
      Answered(net, cfg.eos, s.reqs, s'.reqs, emitted)
    decreases |ids|
  {
    hide KvInv, AllShaped, Queues, Ready, PostOne, Answered, RefNext, FinishReason, BlocksNeededFor;
    KvShape(net, s);
    if ids == [] {
      AnsweredNothing(net, cfg.eos, s.reqs);
    } else {
      var k := ids[0];
      assert ids + [] == ids && ids[1..] + [] == ids[1..];
      HeadApart(s.pool.bs, |s.pool.ref|, s.reqs, ids, []);
      assert k in ids && forall j :: j in ids[1..] ==> j in ids;
      var token := RefToken(net, s, k);
      PostOneInv(net, cfg, s, ids[1..], k, token);
      PostAnswers(net, cfg, s, k);
      var s1 := PostOne(cfg, s, k, token);
      MapRefSame(net, s, s1, ids[1..]);
      ReadyOthers(net, s, s1, k);
      PostAllAnswers(net, cfg, s1, ids[1..]);
      var (s2, more) := PostAll(cfg, s1, ids[1..], MapRefTokens(net, s1, ids[1..]));
      AnsweredCons(net, cfg.eos, s, s1, s2, k, if token.Some? then [token.value] else [], more);
    }
  }

  lemma {:induction false} HarvestConcat(a: seq<Emission>, b: seq<Emission>, k: nat)
    ensures Harvest(a + b, k) == Harvest(a, k) + Harvest(b, k)
  {
    if a == [] {
      assert a + b == b;
    } else {
      assert (a + b)[1..] == a[1..] + b;
      HarvestConcat(a[1..], b, k);
    }
  }

  lemma AnsweredTrans(net: Net, eos: Option<Token>, a: seq<Req>, b: seq<Req>, c: seq<Req>, e: seq<Emission>, f: seq<Emission>)
    requires Answered(net, eos, a, b, e) && Answered(net, eos, b, c, f)
    ensures Answered(net, eos, a, c, e + f)
  {
    hide FinalTokens, Strip, Harvest;
    forall k: nat | k < |a|
      ensures Strip(c[k]).tokens == Strip(a[k]).tokens + Harvest(e + f, k)
    {
      HarvestConcat(e, f, k);
    }
  }

  /** A batch reports every token it adds to a history, and changes nobody's outcome. */
  lemma BatchAnswers(net: Net, cfg: Config, s: Sys, ids: seq<nat>)
    requires StepInv(net, s, ids)
    ensures var (s', emitted) := PagedBatch(net, cfg, s, ids); Answered(net, cfg.eos, s.reqs, s'.reqs, emitted)
  {
    hide KvInv, AllShaped, Queues, RunAll, CommitAll, PostAll, MapTokens, MapRefTokens, MapChoices, MapRefChoices, SpecIds, NormalIds, Answered, Ready;
    KvShape(net, s);
    var specs, normal := SpecIds(s, ids), NormalIds(s, ids);
    Partition(s.pool.bs, |s.pool.ref|, s, ids);
    PartitionMembers(s, ids);
    PartitionDistinct(s, ids);
    AllPlanned(s.pool.bs, |s.pool.ref|, s.reqs, specs, normal);
    SpecHalf(net, cfg, s, specs, normal);
    assert forall k :: k in specs ==> k in specs + normal;
    RunAllInv(net, s, specs + normal, specs, {});
    var s1 := RunAll(net, s, specs);
    ChoicesAgree(net, s1, specs);
    CommitAllAnswers(net, cfg, s1, specs, normal);
    var (s2, e1) := CommitAll(cfg, s1, specs, MapChoices(net, s1, specs));
    NormalsUntouched(s1, s2, specs, normal);
    RunAllInv(net, s2, normal, normal, {});
    var s3 := RunAll(net, s2, normal);
    MapsAgree(net, s3, normal);
    PostAllAnswers(net, cfg, s3, normal);
    var (s4, e2) := PostAll(cfg, s3, normal, MapTokens(net, s3, normal));
    AnsweredTrans(net, cfg.eos, s.reqs, s2.reqs, s4.reqs, e1, e2);
  }

  lemma ScheduledAnswers(net: Net, eos: Option<Token>, a: seq<Req>, b: seq<Req>, c: seq<Req>, emitted: seq<Emission>)
    requires Unanswered(a, b) && Answered(net, eos, b, c, emitted)
    ensures Answered(net, eos, a, c, emitted)
  {
    hide PlainRun;
    forall k: nat | k < |a|
      ensures FinalTokens(net, eos, b[k]) == FinalTokens(net, eos, a[k])
    {
      if Decoding(Strip(a[k])) {
        PlainRunSame(Target(net, a[k].policy), Strip(a[k]), Strip(b[k]), eos);
      }
    }
  }

  /** One engine step: every history grows by exactly what the step reports for it, and every
      request is still heading for the history that decoding it alone would give. */
  lemma StepAnswers(net: Net, cfg: Config, propose: Proposer, s: Sys)
    requires SysInv(net, s)
    ensures var result := PagedStep(net, cfg, propose, s);
      && (result.Stepped? ==> Answered(net, cfg.eos, s.reqs, result.s.reqs, result.emitted))
      && (result.Refused? ==> Answered(net, cfg.eos, s.reqs, result.s.reqs, []))
  {
    hide SysInv, StepInv, ScheduleLoop, PagedBatch, Answered, Unanswered;
    var bound := cfg.maxSeqs + |s.running| + |s.waiting| + 1;
    ScheduleInvariant(net, cfg, propose, s, bound);
    ScheduleAsks(net, cfg, propose, s, bound);
    var outcome := Schedule(cfg, propose, s);
    if outcome.Scheduled? {
      BatchAnswers(net, cfg, outcome.s, outcome.ids);
      ScheduledAnswers(net, cfg.eos, s.reqs, outcome.s.reqs, PagedBatch(net, cfg, outcome.s, outcome.ids).0.reqs,
                       PagedBatch(net, cfg, outcome.s, outcome.ids).1);
    } else if outcome.Idle? || outcome.TooLarge? {
      AnsweredNothing(net, cfg.eos, outcome.s.reqs);
      ScheduledAnswers(net, cfg.eos, s.reqs, outcome.s.reqs, outcome.s.reqs, []);
    }
  }

  // ----- whole turns -----

  function EventTokens(event: Event, k: nat): seq<Token> {
    if event.Emitted? then Harvest(event.tokens, k) else []
  }

  /** Everything a run reported for one request. */
  function HarvestRun(events: seq<Event>, k: nat): seq<Token> {
    if events == [] then [] else EventTokens(events[0], k) + HarvestRun(events[1..], k)
  }

  /** Steps, and whatever happens to others. */
  predicate LeavesAlone(op: Op, k: nat) {
    op.Step? || op.Add? || (op.Continue? && op.id != k) || (op.Finish? && op.id != k)
  }

  lemma HostOpLeaves(s: Sys, op: Op, k: nat)
    requires s.pool.bs >= 1 && k < |s.reqs| && LeavesAlone(op, k)
    ensures var s' := HostOp(s, op).0; k < |s'.reqs| && s'.reqs[k] == s.reqs[k]
  {
    hide AttachCachedPrefix, DecrefAll, Without, BlocksNeededFor, ReleaseAll, InvalidateAll;
  }

  lemma ApplyAnswers(cfg: Config, w: World, op: Op, k: nat)
    requires WorldInv(w) && k < |w.s.reqs| && LeavesAlone(op, k)
    ensures var (w', event) := PagedApply(cfg, w, op);
      && w'.net == w.net && k < |w'.s.reqs|
      && Strip(w'.s.reqs[k]).tokens == Strip(w.s.reqs[k]).tokens + EventTokens(event, k)
      && FinalTokens(w.net, cfg.eos, w'.s.reqs[k]) == FinalTokens(w.net, cfg.eos, w.s.reqs[k])
  {
    hide SysInv, HostOp, PagedStep, FinalTokens, Strip, Harvest;
    WorldShape(w);
    if op.Step? {
      StepRefines(w.net, cfg, op.propose, w.s);
      StepAnswers(w.net, cfg, op.propose, w.s);
      assert Harvest([], k) == [] by { HarvestNothing(k); }
    } else {
      HostOpLeaves(w.s, op, k);
      HostOpEvent(w.s, op);
      assert Strip(w.s.reqs[k]).tokens + [] == Strip(w.s.reqs[k]).tokens;
    }
  }

  lemma HarvestNothing(k: nat)
    ensures Harvest([], k) == []
  {
  }

  lemma {:induction false} RunAnswers(cfg: Config, w: World, ops: seq<Op>, k: nat)
    requires WorldInv(w) && k < |w.s.reqs| && forall op :: op in ops ==> LeavesAlone(op, k)
    ensures var (w', events) := PagedRun(cfg, w, ops);
      && WorldInv(w') && w'.net == w.net && k < |w'.s.reqs|
      && Strip(w'.s.reqs[k]).tokens == Strip(w.s.reqs[k]).tokens + HarvestRun(events, k)
      && FinalTokens(w.net, cfg.eos, w'.s.reqs[k]) == FinalTokens(w.net, cfg.eos, w.s.reqs[k])
    decreases |ops|
  {
    hide WorldInv, PagedApply, FinalTokens, Strip, EventTokens;
    if ops == [] {
      assert Strip(w.s.reqs[k]).tokens + [] == Strip(w.s.reqs[k]).tokens;
    } else {
      assert ops[0] in ops && forall op :: op in ops[1..] ==> op in ops;
      ApplyAnswers(cfg, w, ops[0], k);
      var (w1, e) := PagedApply(cfg, w, ops[0]);
      assert !ops[0].Invalidate? by { NotInvalidate(ops[0], k); }
      ApplyRefines(cfg, w, ops[0]);
      RunAnswers(cfg, w1, ops[1..], k);
      var events := PagedRun(cfg, w1, ops[1..]).1;
      assert ([e] + events)[1..] == events;
    }
  }

  lemma NotInvalidate(op: Op, k: nat)
    requires LeavesAlone(op, k)
    ensures !op.Invalidate?
  {
  }

  /** One turn, whoever else comes and goes: once the request has stopped, everything reported
      for it is exactly what greedy decoding it alone, one token at a time, would add. */
  lemma TurnIsGreedy(cfg: Config, w: World, ops: seq<Op>, k: nat)
    requires WorldInv(w) && k < |w.s.reqs| && Live(w.s.reqs[k])
    requires forall op :: op in ops ==> LeavesAlone(op, k)
    ensures Decoding(w.s.reqs[k])
    ensures var (w', events) := PagedRun(cfg, w, ops); var r := w.s.reqs[k];
      && k < |w'.s.reqs|
      && w'.s.reqs[k].tokens == r.tokens + HarvestRun(events, k)
      && (!Live(w'.s.reqs[k]) ==>
            r.tokens + HarvestRun(events, k) == PlainRun(Target(w.net, r.policy), r, cfg.eos).tokens)
  {
    hide PagedApply, PlainRun, KvInv, HarvestRun;
    RunAnswers(cfg, w, ops, k);
    var w' := PagedRun(cfg, w, ops).0;
    WorldShape(w);
    WorldShape(w');
    ShapedMember(w.s.pool.bs, |w.s.pool.ref|, w.s.reqs, [], k);
    ShapedMember(w'.s.pool.bs, |w'.s.pool.ref|, w'.s.reqs, [], k);
  }

  // ----- histories only grow -----

  lemma {:induction false} ReleaseAllHistories(s: Sys, ids: seq<nat>, k: nat)
    requires k < |s.reqs|
    ensures var s' := ReleaseAll(s, ids); k < |s'.reqs| && s'.reqs[k].tokens == s.reqs[k].tokens
    ensures s.reqs[k].draft == 0 ==> ReleaseAll(s, ids).reqs[k].draft == 0
    decreases |ids|
  {
    hide DecrefAll, Without;
    if ids != [] {
      ReleaseAllHistories(Release(s, ids[0]), ids[1..], k);
    }
  }

  lemma HostOpGrows(s: Sys, op: Op, k: nat)
    requires s.pool.bs >= 1 && k < |s.reqs| && s.reqs[k].draft == 0
    ensures var s' := HostOp(s, op).0; k < |s'.reqs| && s'.reqs[k].draft == 0 && s.reqs[k].tokens <= s'.reqs[k].tokens
  {
    hide AttachCachedPrefix, DecrefAll, Without, BlocksNeededFor, ReleaseAll, ResetPool;
    ReleaseAllHistories(s, s.waiting + s.running, k);
  }

  lemma ApplyGrows(cfg: Config, w: World, op: Op, k: nat)
    requires WorldInv(w) && k < |w.s.reqs|
    ensures var w' := PagedApply(cfg, w, op).0;
      k < |w'.s.reqs| && Strip(w.s.reqs[k]).tokens <= Strip(w'.s.reqs[k]).tokens
  {
    hide HostOp, PagedStep, FinalTokens, Harvest, KvInv;
    WorldShape(w);
    ShapedMember(w.s.pool.bs, |w.s.pool.ref|, w.s.reqs, [], k);
    if op.Step? {
      StepRefines(w.net, cfg, op.propose, w.s);
      StepAnswers(w.net, cfg, op.propose, w.s);
    } else {
      HostOpGrows(w.s, op, k);
    }
  }

  /** Whatever happens, a committed token is never changed or lost: what a request's history
      was at any moment is a prefix of what it is at any later one. */
  lemma {:induction false} RunGrows(cfg: Config, w: World, ops: seq<Op>, k: nat)
    requires WorldInv(w) && Careful(cfg, w, ops) && k < |w.s.reqs|
    ensures var w' := PagedRun(cfg, w, ops).0;
      k < |w'.s.reqs| && Strip(w.s.reqs[k]).tokens <= Strip(w'.s.reqs[k]).tokens
    decreases |ops|
  {
    hide WorldInv, PagedApply, RefApply, SafeToInvalidate, Strip, HostWorld;
    if ops != [] {
      ApplyGrows(cfg, w, ops[0], k);
      ApplyRefines(cfg, w, ops[0]);
      RunGrows(cfg, PagedApply(cfg, w, ops[0]).0, ops[1..], k);
    }
  }
}

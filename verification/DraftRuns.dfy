/** The n-gram indexes over whole runs: each stays a prefix of its request's committed history,
    so the run that keeps them is the run that would build a fresh one for every proposal. */
module DraftRuns {
  import opened Kv
  import opened BlockPool
  import opened Requests
  import opened Ownership
  import opened SpecDecode
  import opened System
  import opened SystemInv
  import opened ScheduleInv
  import opened Engine
  import opened Runs
  import opened Outcomes
  import D = Drafts
  import N = Ngram

  datatype Ngrams = Ngrams(lo: nat, hi: nat)

  /** One consultation: the history it was made at, the output room, and the answer. */
  datatype Asked = Asked(tokens: seq<Token>, room: nat, drafts: seq<Token>)

  /** The index of every request that has one, and every consultation so far. */
  datatype Drafter = Drafter(indexes: map<nat, D.Index>, asked: seq<Asked>)

  /** What a fresh index would propose. */
  ghost function FreshDrafts(cfg: Config, ng: Ngrams, tokens: seq<Token>, room: nat): seq<Token> {
    if room == 0 || cfg.draftLimit == 0 then [] else N.Proposal(tokens, ng.lo, ng.hi, Min(cfg.draftLimit, room), D.MAX_MODEL_LEN)
  }

  ghost function Fresh(cfg: Config, ng: Ngrams): Proposer {
    (r: Req) => FreshDrafts(cfg, ng, r.tokens, OutputRoom(r))
  }

  // ----- scheduling with indexes -----

  /** The guards in front of `propose_drafts`. */
  predicate Consults(cfg: Config, r: Req) {
    cfg.draftLimit != 0 && r.draft == 0 && r.PrefillComplete() && r.Uncomputed() == 1
  }

  ghost function Consult(cfg: Config, ng: Ngrams, d: Drafter, k: nat, r: Req): (Drafter, seq<Token>) {
    if !Consults(cfg, r) then (d, [])
    else
      var before := if k in d.indexes then Some(d.indexes[k]) else None;
      var (index, drafts) := D.Answer(before, r.tokens, OutputRoom(r), cfg.draftLimit, ng.lo, ng.hi);
      (Drafter(if index.Some? then d.indexes[k := index.value] else d.indexes, d.asked + [Asked(r.tokens, OutputRoom(r), drafts)]), drafts)
  }

  ghost function ConsiderDrafted(cfg: Config, ng: Ngrams, d: Drafter, pass: Pass, k: nat): (Drafter, Pass) {
    if pass.PoolExhausted? || k >= |pass.s.reqs| || pass.s.pool.bs == 0 || Full(cfg, pass) then (d, pass)
    else
      var (d', drafts) := Consult(cfg, ng, d, k, pass.s.reqs[k]);
      (d', ConsiderOne(cfg, r => drafts, pass, k))
  }

  ghost function ConsiderAllDrafted(cfg: Config, ng: Ngrams, d: Drafter, pass: Pass, ids: seq<nat>): (Drafter, Pass)
    decreases |ids|
  {
    if ids == [] then (d, pass)
    else
      var (d', pass') := ConsiderDrafted(cfg, ng, d, pass, ids[0]);
      ConsiderAllDrafted(cfg, ng, d', pass', ids[1..])
  }

  /** A waiting request that gives back its attached prefix has its KV state reset. */
  predicate GivesBack(pass: Pass, k: nat)
    requires pass.Pass? && k < |pass.s.reqs|
  {
    var (p, r) := if pass.s.pool.bs == 0 then (pass.s.pool, pass.s.reqs[k]) else Readmit(pass.s.pool, pass.s.reqs[k]);
    && pass.s.pool.bs != 0 && p.bs != 0
    && var (p', n) := TokensToSchedule(p, r, pass.budget);
       (n == 0 || p'.bs == 0) && r.computed > 0 && pass.s.reqs[k].table == [] && pass.s.reqs[k].computed == 0
  }

  function Without(d: Drafter, k: nat): Drafter {
    d.(indexes := d.indexes - {k})
  }

  /** The indexes that are left after the queue has been offered to the batch. */
  function AfterQueue(cfg: Config, d: Drafter, pass: Pass): Drafter
    decreases if pass.Pass? then |pass.s.waiting| else 0
  {
    if pass.PoolExhausted? || pass.s.waiting == [] || Full(cfg, pass) || pass.s.waiting[0] >= |pass.s.reqs| then d
    else
      var k := pass.s.waiting[0];
      var popped := pass.(s := pass.s.(waiting := pass.s.waiting[1..]));
      var pass' := ConsiderWaiting(popped, k).0;
      if pass'.PoolExhausted? || |pass'.s.waiting| >= |pass.s.waiting| then d
      else AfterQueue(cfg, if GivesBack(popped, k) then Without(d, k) else d, pass')
  }

  ghost function PassDrafted(cfg: Config, ng: Ngrams, d: Drafter, s: Sys): (Drafter, Pass) {
    var (d', pass) := ConsiderAllDrafted(cfg, ng, d, Pass(s, [], cfg.maxBatched), s.running);
    (AfterQueue(cfg, d', pass), ScheduleWaiting(cfg, pass, []))
  }

  /** A preempted request loses its index with the rest of its KV state. */
  ghost function ScheduleDrafted(cfg: Config, ng: Ngrams, d: Drafter, s: Sys, bound: nat): (Drafter, Outcome)
    decreases bound
  {
    if bound == 0 then (d, NotAdmitted)
    else
      var (d', pass) := PassDrafted(cfg, ng, d, s);
      if pass.PoolExhausted? then (d', PoolError)
      else if pass.scheduled != [] then (d', Scheduled(pass.s, pass.scheduled))
      else if pass.s.running != [] then
        ScheduleDrafted(cfg, ng, Without(d', pass.s.running[|pass.s.running| - 1]), Preempt(pass.s), bound - 1)
      else if pass.s.waiting != [] then (d', TooLarge(pass.s))
      else (d', Idle(pass.s))
  }

  // ----- whole runs -----

  datatype Drafted = Drafted(w: World, d: Drafter)

  /** Finished requests are reset and forgotten. */
  function Forgotten(d: Drafter, reqs: seq<Req>): Drafter {
    d.(indexes := map k | k in d.indexes && (k >= |reqs| || reqs[k].status != Finished) :: d.indexes[k])
  }

  ghost function StepDrafted(cfg: Config, ng: Ngrams, x: Drafted): (Drafted, Event) {
    var (d, outcome) := ScheduleDrafted(cfg, ng, x.d, x.w.s, cfg.maxSeqs + |x.w.s.running| + |x.w.s.waiting| + 1);
    match outcome
    case Scheduled(s', ids) =>
      var (s'', emitted) := PagedBatch(x.w.net, cfg, s', ids);
      (Drafted(World(x.w.net, s''), Forgotten(d, s''.reqs)), Emitted(emitted))
    case Idle(s') => (Drafted(World(x.w.net, s'), d), Emitted([]))
    case TooLarge(s') => (Drafted(World(x.w.net, s'), d), Rejected)
    case _ => (x, Corrupt)
  }

  /** An operation with the indexes kept; the proposer named by a step is not consulted. */
  ghost function ApplyDrafted(cfg: Config, ng: Ngrams, x: Drafted, op: Op): (Drafted, Event) {
    if x.w.s.pool.bs == 0 then (x, Corrupt)
    else if op.Step? then StepDrafted(cfg, ng, x)
    else
      var (w, e) := PagedApply(cfg, x.w, op);
      (Drafted(w, if op.Restart? || op.Invalidate? then x.d.(indexes := map[]) else Forgotten(x.d, w.s.reqs)), e)
  }

  ghost function RunDrafted(cfg: Config, ng: Ngrams, x: Drafted, ops: seq<Op>): (Drafted, seq<Event>)
    decreases |ops|
  {
    if ops == [] then (x, [])
    else
      var (x1, e) := ApplyDrafted(cfg, ng, x, ops[0]);
      var (x2, more) := RunDrafted(cfg, ng, x1, ops[1..]);
      (x2, [e] + more)
  }

  ghost function FreshOp(cfg: Config, ng: Ngrams, op: Op): Op {
    if op.Step? then Step(Fresh(cfg, ng)) else op
  }

  ghost function FreshOps(cfg: Config, ng: Ngrams, ops: seq<Op>): seq<Op> {
    if ops == [] then [] else [FreshOp(cfg, ng, ops[0])] + FreshOps(cfg, ng, ops[1..])
  }

  // ----- the invariant -----

  /** Every index was built from a prefix of its request's committed history. */
  ghost predicate InStep(d: Drafter, reqs: seq<Req>) {
    forall k :: k in d.indexes ==> k < |reqs| && d.indexes[k].tokens <= Strip(reqs[k]).tokens
  }

  ghost predicate AllFresh(cfg: Config, ng: Ngrams, asked: seq<Asked>) {
    forall a :: a in asked ==> a.drafts == FreshDrafts(cfg, ng, a.tokens, a.room)
  }

  ghost predicate Good(cfg: Config, ng: Ngrams, d: Drafter, reqs: seq<Req>) {
    InStep(d, reqs) && AllFresh(cfg, ng, d.asked)
  }

  lemma FewerGood(cfg: Config, ng: Ngrams, d: Drafter, d': Drafter, reqs: seq<Req>)
    requires Good(cfg, ng, d, reqs) && d'.asked == d.asked
    requires forall k :: k in d'.indexes ==> k in d.indexes && d'.indexes[k] == d.indexes[k]
    ensures Good(cfg, ng, d', reqs)
  {
  }

  /** Committed histories that only grow keep every index in step. */
  ghost predicate Grown(reqs: seq<Req>, reqs': seq<Req>) {
    |reqs| <= |reqs'| && forall k :: 0 <= k < |reqs| ==> Strip(reqs[k]).tokens <= Strip(reqs'[k]).tokens
  }

  lemma GrownGood(cfg: Config, ng: Ngrams, d: Drafter, reqs: seq<Req>, reqs': seq<Req>)
    requires Good(cfg, ng, d, reqs) && Grown(reqs, reqs')
    ensures Good(cfg, ng, d, reqs')
  {
    hide Strip;
  }

  lemma UnansweredGrown(a: seq<Req>, b: seq<Req>)
    requires Unanswered(a, b)
    ensures Grown(a, b) && Grown(b, a)
  {
    hide Strip;
  }

  lemma GrownTrans(a: seq<Req>, b: seq<Req>, c: seq<Req>)
    requires Grown(a, b) && Grown(b, c)
    ensures Grown(a, c)
  {
    hide Strip;
    forall k | 0 <= k < |a|
      ensures Strip(a[k]).tokens <= Strip(c[k]).tokens
    {
      var t, u, v := Strip(a[k]).tokens, Strip(b[k]).tokens, Strip(c[k]).tokens;
      assert v[..|t|] == v[..|u|][..|t|] == t;
    }
  }

  // ----- one consultation -----

  /** Only the answer for the request at hand matters. */
  lemma SameDrafts(cfg: Config, propose: Proposer, propose': Proposer, p: Pool, r: Req, budget: nat)
    requires p.bs >= 1 && (Consults(cfg, r) ==> propose(r) == propose'(r))
    ensures PlanRunning(cfg, propose, p, r, budget) == PlanRunning(cfg, propose', p, r, budget)
  {
    hide MaxAllocatable, TokensToSchedule;
    assert MaybeAttachDrafts(cfg, propose, p, r, budget) == MaybeAttachDrafts(cfg, propose', p, r, budget);
  }

  lemma ConsultFresh(cfg: Config, ng: Ngrams, d: Drafter, k: nat, reqs: seq<Req>)
    requires k < |reqs| && Good(cfg, ng, d, reqs)
    ensures var (d', drafts) := Consult(cfg, ng, d, k, reqs[k]);
      Good(cfg, ng, d', reqs) && (Consults(cfg, reqs[k]) ==> drafts == Fresh(cfg, ng)(reqs[k]))
  {
    var r := reqs[k];
    if Consults(cfg, r) {
      var before := if k in d.indexes then Some(d.indexes[k]) else None;
      assert Strip(r) == r;
      D.SyncedExact(before, r.tokens, ng.lo, ng.hi);
      var (d', drafts) := Consult(cfg, ng, d, k, r);
      assert drafts == FreshDrafts(cfg, ng, r.tokens, OutputRoom(r));
      assert forall a :: a in d'.asked <==> a in d.asked || a == Asked(r.tokens, OutputRoom(r), drafts);
    }
  }

  lemma ConsiderFresh(cfg: Config, ng: Ngrams, d: Drafter, pass: Pass, k: nat)
    requires pass.Pass? && Good(cfg, ng, d, pass.s.reqs)
    ensures var (d', pass') := ConsiderDrafted(cfg, ng, d, pass, k);
      pass' == ConsiderOne(cfg, Fresh(cfg, ng), pass, k) && (pass'.Pass? ==> Good(cfg, ng, d', pass'.s.reqs))
  {
    hide Good, Reserve, PlanRunning, Fresh, Consult, Consults, Unanswered;
    ConsiderOneAsks(cfg, Fresh(cfg, ng), pass, k);
    if k < |pass.s.reqs| && pass.s.pool.bs != 0 && !Full(cfg, pass) {
      var r := pass.s.reqs[k];
      ConsultFresh(cfg, ng, d, k, pass.s.reqs);
      var (d', drafts) := Consult(cfg, ng, d, k, r);
      SameDrafts(cfg, _ => drafts, Fresh(cfg, ng), pass.s.pool, r, pass.budget);
      var pass' := ConsiderOne(cfg, Fresh(cfg, ng), pass, k);
      if pass'.Pass? {
        UnansweredGrown(pass.s.reqs, pass'.s.reqs);
        GrownGood(cfg, ng, d', pass.s.reqs, pass'.s.reqs);
      }
    }
  }

  lemma {:induction false} ConsiderAllFresh(cfg: Config, ng: Ngrams, d: Drafter, pass: Pass, ids: seq<nat>)
    requires pass.Pass? && Good(cfg, ng, d, pass.s.reqs)
    ensures var (d', pass') := ConsiderAllDrafted(cfg, ng, d, pass, ids);
      pass' == ConsiderRunning(cfg, Fresh(cfg, ng), pass, ids) && (pass'.Pass? ==> Good(cfg, ng, d', pass'.s.reqs))
    decreases |ids|
  {
    hide Good, ConsiderDrafted, ConsiderOne, Fresh;
    if ids != [] {
      ConsiderFresh(cfg, ng, d, pass, ids[0]);
      var (d', pass') := ConsiderDrafted(cfg, ng, d, pass, ids[0]);
      if pass'.Pass? {
        ConsiderAllFresh(cfg, ng, d', pass', ids[1..]);
      } else {
        ExhaustedDrafted(cfg, ng, d', ids[1..]);
        StaysExhausted(cfg, Fresh(cfg, ng), ids[1..]);
      }
    }
  }

  lemma {:induction false} ExhaustedDrafted(cfg: Config, ng: Ngrams, d: Drafter, ids: seq<nat>)
    ensures ConsiderAllDrafted(cfg, ng, d, PoolExhausted, ids).1 == PoolExhausted
  {
    if ids != [] {
      ExhaustedDrafted(cfg, ng, d, ids[1..]);
    }
  }

  lemma {:induction false} AfterQueueFewer(cfg: Config, d: Drafter, pass: Pass)
    ensures var d' := AfterQueue(cfg, d, pass);
      d'.asked == d.asked && forall k :: k in d'.indexes ==> k in d.indexes && d'.indexes[k] == d.indexes[k]
    decreases if pass.Pass? then |pass.s.waiting| else 0
  {
    hide ConsiderWaiting, GivesBack;
    if pass.Pass? && pass.s.waiting != [] && !Full(cfg, pass) && pass.s.waiting[0] < |pass.s.reqs| {
      var k := pass.s.waiting[0];
      var popped := pass.(s := pass.s.(waiting := pass.s.waiting[1..]));
      var pass' := ConsiderWaiting(popped, k).0;
      if pass'.Pass? && |pass'.s.waiting| < |pass.s.waiting| {
        AfterQueueFewer(cfg, if GivesBack(popped, k) then Without(d, k) else d, pass');
      }
    }
  }

  lemma QueueExhausted(cfg: Config)
    ensures ScheduleWaiting(cfg, PoolExhausted, []) == PoolExhausted
  {
  }

  lemma PassFresh(net: Net, cfg: Config, ng: Ngrams, d: Drafter, s: Sys)
    requires SysInv(net, s) && Good(cfg, ng, d, s.reqs)
    ensures var (d', pass) := PassDrafted(cfg, ng, d, s);
      pass == SchedulePass(cfg, Fresh(cfg, ng), s) && pass.Pass? && Good(cfg, ng, d', pass.s.reqs)
  {
    hide SysInv, Good, ConsiderAllDrafted, ConsiderRunning, ScheduleWaiting, AfterQueue, Fresh, Unanswered;
    var start := Pass(s, [], cfg.maxBatched);
    PassAsks(net, cfg, Fresh(cfg, ng), s);
    ConsiderAllFresh(cfg, ng, d, start, s.running);
    ConsiderRunningAsks(cfg, Fresh(cfg, ng), start, s.running);
    var (d1, mid) := ConsiderAllDrafted(cfg, ng, d, start, s.running);
    var final := ScheduleWaiting(cfg, mid, []);
    QueueExhausted(cfg);
    if mid.Pass? {
      UnansweredGrown(s.reqs, mid.s.reqs);
      UnansweredGrown(s.reqs, final.s.reqs);
      GrownTrans(mid.s.reqs, s.reqs, final.s.reqs);
      GrownGood(cfg, ng, d1, mid.s.reqs, final.s.reqs);
      AfterQueueFewer(cfg, d1, mid);
      FewerGood(cfg, ng, d1, AfterQueue(cfg, d1, mid), final.s.reqs);
    }
  }

  lemma {:induction false} ScheduleFresh(net: Net, cfg: Config, ng: Ngrams, d: Drafter, s: Sys, bound: nat)
    requires SysInv(net, s) && Good(cfg, ng, d, s.reqs)
    ensures var (d', outcome) := ScheduleDrafted(cfg, ng, d, s, bound);
      && outcome == ScheduleLoop(cfg, Fresh(cfg, ng), s, bound)
      && (outcome.Scheduled? || outcome.Idle? || outcome.TooLarge? ==> Good(cfg, ng, d', outcome.s.reqs))
    decreases bound
  {
    hide SysInv, Good, PassDrafted, SchedulePass, Fresh, Preempt, Unanswered;
    if bound != 0 {
      PassFresh(net, cfg, ng, d, s);
      var (d', pass) := PassDrafted(cfg, ng, d, s);
      PassKeeps(net, cfg, Fresh(cfg, ng), s);
      if pass.scheduled == [] && pass.s.running != [] {
        var k := pass.s.running[|pass.s.running| - 1];
        PreemptInv(net, pass.s);
        PreemptAsks(net, pass.s);
        UnansweredGrown(pass.s.reqs, Preempt(pass.s).reqs);
        GrownGood(cfg, ng, d', pass.s.reqs, Preempt(pass.s).reqs);
        FewerGood(cfg, ng, d', Without(d', k), Preempt(pass.s).reqs);
        ScheduleFresh(net, cfg, ng, Without(d', k), Preempt(pass.s), bound - 1);
      }
    }
  }

  lemma PassKeeps(net: Net, cfg: Config, propose: Proposer, s: Sys)
    requires SysInv(net, s)
    ensures var pass := SchedulePass(cfg, propose, s); pass.Pass? && (pass.scheduled == [] ==> SysInv(net, pass.s))
  {
    hide KvInv, AllShaped, Queues, SchedulePass;
    SchedulePassInv(net, cfg, propose, s);
    var pass := SchedulePass(cfg, propose, s);
    if pass.scheduled == [] {
      assert [] + pass.s.waiting == pass.s.waiting;
      EmptyPass(net, pass);
    }
  }

  // ----- one operation -----

  lemma ForgottenGood(cfg: Config, ng: Ngrams, d: Drafter, reqs: seq<Req>)
    requires Good(cfg, ng, d, reqs)
    ensures Good(cfg, ng, Forgotten(d, reqs), reqs)
  {
    hide Good;
    FewerGood(cfg, ng, d, Forgotten(d, reqs), reqs);
  }

  lemma AnsweredGrown(net: Net, eos: Option<Token>, a: seq<Req>, b: seq<Req>, emitted: seq<Emission>)
    requires Answered(net, eos, a, b, emitted)
    ensures Grown(a, b)
  {
    hide Strip, FinalTokens, Harvest;
  }

  lemma StepFresh(cfg: Config, ng: Ngrams, x: Drafted)
    requires WorldInv(x.w) && Good(cfg, ng, x.d, x.w.s.reqs) && x.w.s.pool.bs >= 1
    ensures var (x', e) := StepDrafted(cfg, ng, x);
      (x'.w, e) == PagedApply(cfg, x.w, Step(Fresh(cfg, ng))) && Good(cfg, ng, x'.d, x'.w.s.reqs)
  {
    hide SysInv, StepInv, Good, ScheduleDrafted, ScheduleLoop, PagedBatch, Fresh, Answered;
    var s := x.w.s;
    var bound := cfg.maxSeqs + |s.running| + |s.waiting| + 1;
    ScheduleInvariant(x.w.net, cfg, Fresh(cfg, ng), s, bound);
    ScheduleFresh(x.w.net, cfg, ng, x.d, s, bound);
    var (d, outcome) := ScheduleDrafted(cfg, ng, x.d, s, bound);
    if outcome.Scheduled? {
      BatchAnswers(x.w.net, cfg, outcome.s, outcome.ids);
      var (s', emitted) := PagedBatch(x.w.net, cfg, outcome.s, outcome.ids);
      AnsweredGrown(x.w.net, cfg.eos, outcome.s.reqs, s'.reqs, emitted);
      GrownGood(cfg, ng, d, outcome.s.reqs, s'.reqs);
      ForgottenGood(cfg, ng, d, s'.reqs);
    }
  }

  lemma NoIndexesGood(cfg: Config, ng: Ngrams, d: Drafter, reqs: seq<Req>, reqs': seq<Req>)
    requires Good(cfg, ng, d, reqs)
    ensures Good(cfg, ng, d.(indexes := map[]), reqs')
  {
  }

  lemma ApplyFresh(cfg: Config, ng: Ngrams, x: Drafted, op: Op)
    requires WorldInv(x.w) && Good(cfg, ng, x.d, x.w.s.reqs)
    ensures var (x', e) := ApplyDrafted(cfg, ng, x, op);
      (x'.w, e) == PagedApply(cfg, x.w, FreshOp(cfg, ng, op)) && Good(cfg, ng, x'.d, x'.w.s.reqs)
  {
    hide SysInv, Good, StepDrafted, PagedApply, Fresh, Strip;
    WorldShape(x.w);
    if op.Step? {
      StepFresh(cfg, ng, x);
    } else {
      var w := PagedApply(cfg, x.w, op).0;
      if op.Restart? || op.Invalidate? {
        NoIndexesGood(cfg, ng, x.d, x.w.s.reqs, w.s.reqs);
      } else {
        forall k | 0 <= k < |x.w.s.reqs|
          ensures k < |w.s.reqs| && Strip(x.w.s.reqs[k]).tokens <= Strip(w.s.reqs[k]).tokens
        {
          ApplyGrows(cfg, x.w, op, k);
        }
        ApplySize(cfg, x.w, op);
        GrownGood(cfg, ng, x.d, x.w.s.reqs, w.s.reqs);
        ForgottenGood(cfg, ng, x.d, w.s.reqs);
      }
    }
  }

  lemma ApplySize(cfg: Config, w: World, op: Op)
    requires WorldInv(w) && !op.Step?
    ensures |w.s.reqs| <= |PagedApply(cfg, w, op).0.s.reqs|
  {
    hide SysInv, PagedApply, Strip;
    if w.s.reqs != [] {
      ApplyGrows(cfg, w, op, |w.s.reqs| - 1);
    }
  }

  /** Over any run, of admissions, steps, speculative commits, preemptions, pauses, resumes and
      weight updates, the indexes that are only ever extended by what is new propose, at every
      consultation, what an index built from that moment's history would: the run is the run
      with fresh proposals, and every index is still a prefix of its request's committed
      history. */
  lemma {:induction false} IndexesStayFresh(cfg: Config, ng: Ngrams, x: Drafted, ops: seq<Op>)
    requires WorldInv(x.w) && Good(cfg, ng, x.d, x.w.s.reqs) && Careful(cfg, x.w, FreshOps(cfg, ng, ops))
    ensures var (x', events) := RunDrafted(cfg, ng, x, ops);
      && (x'.w, events) == PagedRun(cfg, x.w, FreshOps(cfg, ng, ops))
      && WorldInv(x'.w) && InStep(x'.d, x'.w.s.reqs) && AllFresh(cfg, ng, x'.d.asked)
    decreases |ops|
  {
    hide WorldInv, InStep, AllFresh, ApplyDrafted, PagedApply, FreshOp, SafeToInvalidate, RefApply, HostWorld;
    if ops != [] {
      var ops1 := FreshOps(cfg, ng, ops);
      assert ops1[0] == FreshOp(cfg, ng, ops[0]) && ops1[1..] == FreshOps(cfg, ng, ops[1..]);
      ApplyFresh(cfg, ng, x, ops[0]);
      ApplyRefines(cfg, x.w, ops1[0]);
      IndexesStayFresh(cfg, ng, ApplyDrafted(cfg, ng, x, ops[0]).0, ops[1..]);
    }
  }

  /** A new engine has no indexes. */
  lemma BootDrafter(cfg: Config, ng: Ngrams, reqs: seq<Req>)
    ensures Good(cfg, ng, Drafter(map[], []), reqs)
  {
  }
}

/** What runs with host memory emit: at every step what the reference runner emits, and for each
    request, over whole turns, what greedy decoding it alone would, even across a save, the loss
    of its blocks, and a restore. */
module TierTokens {
  import opened Kv
  import opened BlockPool
  import opened Requests
  import opened SpecDecode
  import opened System
  import opened SystemInv
  import opened ScheduleInv
  import opened Engine
  import opened Runs
  import opened Outcomes
  import opened St = Steady
  import Tr = Transfer
  import opened PlainRestore
  import opened Restore
  import opened Offload
  import opened Groups
  import opened OffloadRuns
  import opened AsyncOffload

  // ----- one request through one operation -----

  /** The request's history grew by exactly what was reported for it, it is heading for the same
      final history, and if it was stopped it is the same session still. */
  ghost predicate Carried(net: Net, eos: Option<Token>, r: Req, r': Req, added: seq<Token>) {
    && Strip(r').tokens == Strip(r).tokens + added
    && FinalTokens(net, eos, r') == FinalTokens(net, eos, r)
    && (!Live(r) ==> SameSession(r, r') && added == [])
  }

  lemma CarriedSession(net: Net, eos: Option<Token>, r: Req, r': Req)
    requires SameSession(r, r')
    ensures Carried(net, eos, r, r', [])
  {
    hide PlainRun;
    assert Strip(r).tokens + [] == Strip(r).tokens;
    if Live(r) && Decoding(Strip(r)) {
      PlainRunSame(Target(net, r.policy), Strip(r), Strip(r'), eos);
    }
  }

  lemma CarriedTrans(net: Net, eos: Option<Token>, a: Req, b: Req, c: Req, x: seq<Token>, y: seq<Token>)
    requires Carried(net, eos, a, b, x) && Carried(net, eos, b, c, y)
    ensures Carried(net, eos, a, c, x + y)
  {
    hide FinalTokens, Strip;
    Reassociate(Strip(a).tokens, x, y);
    if !Live(a) {
      SameSessionTrans(a, b, c);
      SessionStatus(a, b);
    }
  }

  lemma SessionStatus(a: Req, b: Req)
    requires SameSession(a, b)
    ensures Live(a) == Live(b)
  {
  }

  lemma CarriedStep(net: Net, eos: Option<Token>, r: Req, r': Req, added: seq<Token>)
    requires Strip(r').tokens == Strip(r).tokens + added && FinalTokens(net, eos, r') == FinalTokens(net, eos, r) && St.Steady(r, r')
    ensures Carried(net, eos, r, r', added)
  {
    hide FinalTokens, Strip;
    if !Live(r) {
      assert |Strip(r).tokens + added| == |Strip(r).tokens| + |added|;
    }
  }

  // ----- one operation -----

  /** Anything but a turn of, an end to, or a reset of request `k`; its saves are included. */
  predicate Passes(op: TierOp, k: nat) {
    op.TAdd? || op.TStep? || op.TSave? || op.TEarly? || op.TEvict? || op.TReclaim? || ((op.TResume? || op.TFinish?) && op.id != k)
  }

  function Reported(result: StepResult): Event {
    match result
    case Stepped(_, emitted) => Emitted(emitted)
    case Refused(_) => Rejected
    case Broken => Corrupt
  }

  lemma StepReports(net: Net, cfg: Config, h: HostConfig, propose: Proposer, t: Tiered)
    ensures StepTiered(net, cfg, h, propose, t).1 == Reported(PagedStep(net, cfg, propose, t.s))
  {
    hide ScheduleLoop, PagedBatch, MarkAll;
  }

  lemma StepCarries(net: Net, cfg: Config, h: HostConfig, propose: Proposer, t: Tiered, k: nat)
    requires TierInv(net, h, t) && k < |t.s.reqs|
    ensures var (t', e) := StepTiered(net, cfg, h, propose, t);
      k < |t'.s.reqs| && Carried(net, cfg.eos, t.s.reqs[k], t'.s.reqs[k], EventTokens(e, k))
  {
    hide TierInv, StepTiered, PagedStep, RefStep, Carried, FinalTokens, Strip, Harvest, St.Steady, SysInv;
    TierSys(net, h, t);
    StepReports(net, cfg, h, propose, t);
    StepTieredInv(net, cfg, h, propose, t);
    StepRefines(net, cfg, propose, t.s);
    StepAnswers(net, cfg, propose, t.s);
    StepSteady(net, cfg, propose, t.s);
    HarvestNothing(k);
    var e := StepTiered(net, cfg, h, propose, t).1;
    CarriedStep(net, cfg.eos, t.s.reqs[k], PagedStep(net, cfg, propose, t.s).s.reqs[k], EventTokens(e, k));
  }

  lemma SaveSession(net: Net, h: HostConfig, t: Tiered, k: nat, copyFails: bool, j: nat)
    requires TierInv(net, h, t) && t.s.pool.bs >= 1 && j < |t.s.reqs|
    ensures var t' := Save(h, t, k, copyFails).0; j < |t'.s.reqs| && SameSession(t.s.reqs[j], t'.s.reqs[j])
  {
    hide TierInv, MakeRoom, DecrefAll, Tr.Exported, BlocksNeededFor, Find, AddSnap, Stored;
    if k < |t.s.reqs| {
      var t1 := t.(nextId := t.nextId + 1);
      NextIdInv(net, h, t);
      MakeRoomQuiet(net, h, t1, BlockBytes(h, BlocksNeededFor(t.s.reqs[k].computed, t.s.pool.bs)));
      var t2 := MakeRoom(h, t1, BlockBytes(h, BlocksNeededFor(t.s.reqs[k].computed, t.s.pool.bs)));
      assert Evicted(t1.s.reqs[j], t2.s.reqs[j]);
    }
  }

  lemma EarlySession(net: Net, h: HostConfig, t: Tiered, k: nat, copyFails: bool, j: nat)
    requires TierInv(net, h, t) && t.s.pool.bs >= 1 && j < |t.s.reqs|
    ensures var t' := EarlySave(h, t, k, copyFails).0; j < |t'.s.reqs| && SameSession(t.s.reqs[j], t'.s.reqs[j])
  {
    hide TierInv, DecrefAll, Tr.Exported, BlocksNeededFor, Find, AddSnap, Stored;
  }

  lemma EvictSession(net: Net, h: HostConfig, t: Tiered, j: nat)
    requires TierInv(net, h, t) && t.books.snaps != [] && j < |t.s.reqs|
    ensures var t' := EvictOldest(h, t); j < |t'.s.reqs| && SameSession(t.s.reqs[j], t'.s.reqs[j])
  {
    hide TierInv, EvictOldest;
    EvictOldestQuiet(net, h, t);
    assert Evicted(t.s.reqs[j], EvictOldest(h, t).s.reqs[j]);
  }

  lemma ApplyCarries(net: Net, cfg: Config, h: HostConfig, t: Tiered, op: TierOp, k: nat)
    requires TierInv(net, h, t) && k < |t.s.reqs| && Passes(op, k)
    ensures var (net', t', e) := TierApply(net, cfg, h, t, op);
      net' == net && k < |t'.s.reqs| && Carried(net, cfg.eos, t.s.reqs[k], t'.s.reqs[k], EventTokens(e, k))
  {
    hide TierInv, StepTiered, ResumeTiered, Save, EarlySave, EvictOldest, ReclaimGroup, FinishTiered, HostOp, Carried, SameSession, Kept, NewSnaps, Harvest;
    TierSys(net, h, t);
    SysSize(net, t.s);
    var r := t.s.reqs[k];
    SessionRefl(r);
    match op
    case TAdd(tokens, q) =>
      AddShape(t.s, tokens, q);
      HostOpEvent(t.s, Add(tokens, q));
      CarriedSession(net, cfg.eos, r, r);
    case TStep(propose) => StepCarries(net, cfg, h, propose, t, k);
    case TResume(j, suffix, q, copyFails) =>
      ResumeElsewhere(net, h, t, j, suffix, q, copyFails);
      ResumeQuiet(h, t, j, suffix, q, copyFails);
      CarriedSession(net, cfg.eos, r, r);
    case TSave(j, copyFails) =>
      SaveSession(net, h, t, j, copyFails, k);
      CarriedSession(net, cfg.eos, r, Save(h, t, j, copyFails).0.s.reqs[k]);
    case TEarly(j, copyFails) =>
      EarlySession(net, h, t, j, copyFails, k);
      CarriedSession(net, cfg.eos, r, EarlySave(h, t, j, copyFails).0.s.reqs[k]);
    case TEvict =>
      CarriedSession(net, cfg.eos, r, r);
      if t.books.snaps != [] {
        EvictSession(net, h, t, k);
        CarriedSession(net, cfg.eos, r, EvictOldest(h, t).s.reqs[k]);
      }
    case TReclaim(group, minFree, fails) =>
      ReclaimGroupInv(net, h, t, group, minFree, fails);
      CarriedSession(net, cfg.eos, r, ReclaimGroup(h, t, group, minFree, fails).t.s.reqs[k]);
    case TFinish(j) =>
      FinishElsewhere(net, h, t, j);
      CarriedSession(net, cfg.eos, r, r);
  }

  lemma SessionRefl(r: Req)
    ensures SameSession(r, r)
  {
  }

  lemma ResumeQuiet(h: HostConfig, t: Tiered, k: nat, suffix: seq<Token>, q: Params, copyFails: bool)
    requires t.s.pool.bs >= 1
    ensures !ResumeTiered(h, t, k, suffix, q, copyFails).1.Emitted?
  {
    hide Resume, RestoreSnap, Forget, AddUse, Find, DecrefAll;
  }

  // ----- whole runs -----

  lemma {:induction false} TierRunCarries(net: Net, cfg: Config, h: HostConfig, t: Tiered, ops: seq<TierOp>, k: nat)
    requires TierInv(net, h, t) && k < |t.s.reqs| && forall op :: op in ops ==> Passes(op, k)
    ensures var (net', t', events) := TierRun(net, cfg, h, t, ops);
      && TierInv(net', h, t') && net' == net && k < |t'.s.reqs|
      && Carried(net, cfg.eos, t.s.reqs[k], t'.s.reqs[k], HarvestRun(events, k))
    decreases |ops|
  {
    hide TierInv, TierApply, Carried, EventTokens;
    if ops == [] {
      SessionRefl(t.s.reqs[k]);
      CarriedSession(net, cfg.eos, t.s.reqs[k], t.s.reqs[k]);
    } else {
      assert ops[0] in ops && forall op :: op in ops[1..] ==> op in ops;
      ApplyCarries(net, cfg, h, t, ops[0], k);
      NoReset(ops[0], k);
      TierApplyInv(net, cfg, h, t, ops[0]);
      var (_, t1, e) := TierApply(net, cfg, h, t, ops[0]);
      TierRunCarries(net, cfg, h, t1, ops[1..], k);
      var (_, t2, events) := TierRun(net, cfg, h, t1, ops[1..]);
      assert ([e] + events)[1..] == events;
      CarriedTrans(net, cfg.eos, t.s.reqs[k], t1.s.reqs[k], t2.s.reqs[k], EventTokens(e, k), HarvestRun(events, k));
    }
  }

  lemma NoReset(op: TierOp, k: nat)
    requires Passes(op, k)
    ensures !op.TInvalidate?
  {
  }

  /** A live request, as any step finds it. */
  lemma LiveDecodes(net: Net, s: Sys, k: nat)
    requires SysInv(net, s) && k < |s.reqs|
    ensures Strip(s.reqs[k]) == s.reqs[k] && (Live(s.reqs[k]) ==> Decoding(s.reqs[k]))
  {
    hide KvInv, BlocksNeededFor;
    KvShape(net, s);
    assert Shaped(s.pool.bs, |s.pool.ref|, s.reqs[k]);
  }

  /** One turn with host memory, whoever else is saved, evicted, restored or dropped: once the
      request has stopped, what was reported for it is what greedy decoding it alone would add. */
  lemma TierTurnIsGreedy(net: Net, cfg: Config, h: HostConfig, t: Tiered, ops: seq<TierOp>, k: nat)
    requires TierInv(net, h, t) && k < |t.s.reqs| && Live(t.s.reqs[k]) && forall op :: op in ops ==> Passes(op, k)
    ensures Decoding(t.s.reqs[k])
    ensures var (_, t', events) := TierRun(net, cfg, h, t, ops); var r := t.s.reqs[k];
      && k < |t'.s.reqs| && t'.s.reqs[k].tokens == r.tokens + HarvestRun(events, k)
      && (!Live(t'.s.reqs[k]) ==> r.tokens + HarvestRun(events, k) == PlainRun(Target(net, r.policy), r, cfg.eos).tokens)
  {
    hide TierInv, TierApply, PlainRun, HarvestRun, SysInv;
    TierRunCarries(net, cfg, h, t, ops, k);
    var t' := TierRun(net, cfg, h, t, ops).1;
    TierSys(net, h, t);
    TierSys(net, h, t');
    LiveDecodes(net, t.s, k);
    LiveDecodes(net, t'.s, k);
  }

  /** The request as a resume asks for it to continue. */
  function Turn(r: Req, suffix: seq<Token>, q: Params): Req {
    r.(tokens := r.tokens + suffix, prompt := |r.tokens + suffix|, maxTokens := q.maxTokens, hold := q.hold, policy := q.policy,
       stops := q.stops, ignoreEos := q.ignoreEos, status := Waiting)
  }

  lemma ResumeAsks(s: Sys, k: nat, suffix: seq<Token>, q: Params)
    requires s.pool.bs >= 1 && k < |s.reqs|
    ensures var resumed := Resume(s, k, suffix, q.maxTokens, q.hold, q.policy, q.stops, q.ignoreEos);
      resumed.Some? ==> |resumed.value.reqs| == |s.reqs| && resumed.value.reqs[k] == Turn(s.reqs[k], suffix, q)
  {
    hide BlocksNeededFor;
  }

  lemma RestoreAsks(h: HostConfig, t: Tiered, k: nat, snap: Snap, copyFails: bool)
    requires k < |t.s.reqs| && t.s.pool.bs >= 1
    ensures var s1 := RestoreSnap(h, t, k, snap, copyFails).0;
      |s1.reqs| == |t.s.reqs| && SameAsk(t.s.reqs[k], s1.reqs[k]) && s1.reqs[k].status == t.s.reqs[k].status
  {
    hide DeviceHits, RebuildTable, Tr.Imported, Pins, PlainTable;
    PinsCount(DeviceHits(t.s.pool, t.s.reqs[k].tokens, snap.valid, |snap.buffer|));
  }

  /** An accepted resume continues the history with exactly the suffix, wherever the KV was. */
  lemma ResumedAsks(h: HostConfig, t: Tiered, k: nat, suffix: seq<Token>, q: Params, copyFails: bool)
    requires k < |t.s.reqs| && t.s.pool.bs >= 1
    ensures var (t', e) := ResumeTiered(h, t, k, suffix, q, copyFails);
      e == Done ==> |t'.s.reqs| == |t.s.reqs| && SameAsk(Turn(t.s.reqs[k], suffix, q), t'.s.reqs[k]) && Live(t'.s.reqs[k])
  {
    hide RestoreSnap, Resume, Forget, AddUse, Find, DecrefAll;
    ResumeAsks(t.s, k, suffix, q);
    if Find(t.books.snaps, k).Some? {
      var snap := Find(t.books.snaps, k).value;
      RestoreAsks(h, t, k, snap, copyFails);
      var s1 := RestoreSnap(h, t, k, snap, copyFails).0;
      if s1.pool.bs >= 1 {
        ResumeAsks(s1, k, suffix, q);
      }
    }
  }

  /** A turn of a parked session.  Whatever happened to its KV before, a save, a group reclaim,
      reuse of its blocks, eviction of its snapshot, and whatever happens to others: if the
      resume is accepted, then once the turn stops the history is the parked history, the suffix,
      and exactly what greedy decoding from there gives. */
  lemma ParkedTurnIsGreedy(net: Net, cfg: Config, h: HostConfig, t: Tiered, k: nat, before: seq<TierOp>,
                           suffix: seq<Token>, q: Params, copyFails: bool, after: seq<TierOp>)
    requires TierInv(net, h, t) && k < |t.s.reqs| && t.s.reqs[k].status == Paused
    requires (forall op :: op in before ==> Passes(op, k)) && (forall op :: op in after ==> Passes(op, k))
    ensures var t1 := TierRun(net, cfg, h, t, before).1;
      t1.s.pool.bs >= 1 &&
      var (t2, e) := ResumeTiered(h, t1, k, suffix, q, copyFails);
      e == Done ==>
        var (_, t3, events) := TierRun(net, cfg, h, t2, after); var asked := Turn(t.s.reqs[k], suffix, q);
        && Decoding(asked) && k < |t3.s.reqs|
        && t3.s.reqs[k].tokens == t.s.reqs[k].tokens + suffix + HarvestRun(events, k)
        && (!Live(t3.s.reqs[k]) ==> t3.s.reqs[k].tokens == PlainRun(Target(net, q.policy), asked, cfg.eos).tokens)
  {
    hide TierInv, TierApply, PlainRun, HarvestRun, SysInv, ResumeTiered, TierRun;
    TierRunCarries(net, cfg, h, t, before, k);
    var t1 := TierRun(net, cfg, h, t, before).1;
    TierSys(net, h, t1);
    SysSize(net, t1.s);
    SessionTurn(net, cfg.eos, t.s.reqs[k], t1.s.reqs[k], suffix, q, HarvestRun(TierRun(net, cfg, h, t, before).2, k));
    ResumedAsks(h, t1, k, suffix, q, copyFails);
    ResumeTieredInv(net, h, t1, k, suffix, q, copyFails);
    var (t2, e) := ResumeTiered(h, t1, k, suffix, q, copyFails);
    if e == Done {
      TierTurnIsGreedy(net, cfg, h, t2, after, k);
      var asked, r := Turn(t.s.reqs[k], suffix, q), t2.s.reqs[k];
      AskTrans(asked, Turn(t1.s.reqs[k], suffix, q), r);
      assert Decoding(asked);
      PlainRunSame(Target(net, q.policy), asked, r, cfg.eos);
    }
  }

  lemma SessionTurn(net: Net, eos: Option<Token>, r: Req, r1: Req, suffix: seq<Token>, q: Params, added: seq<Token>)
    requires Carried(net, eos, r, r1, added) && r.status == Paused
    ensures SameAsk(Turn(r, suffix, q), Turn(r1, suffix, q))
  {
    hide FinalTokens, Strip;
  }

  lemma AskTrans(a: Req, b: Req, c: Req)
    requires SameAsk(a, b) && SameAsk(b, c)
    ensures SameAsk(a, c)
  {
  }

  // ----- every step against the reference runner -----

  /** Every step of the run reports what the recompute-from-token-0 runner reports there. */
  ghost predicate StepsAgree(net: Net, cfg: Config, h: HostConfig, t: Tiered, ops: seq<TierOp>)
    decreases |ops|
  {
    ops == [] ||
    var (net1, t1, e) := TierApply(net, cfg, h, t, ops[0]);
    (ops[0].TStep? ==> e == Reported(RefStep(net, cfg, ops[0].propose, Host(t.s)))) && StepsAgree(net1, cfg, h, t1, ops[1..])
  }

  lemma StepAgrees(net: Net, cfg: Config, h: HostConfig, t: Tiered, propose: Proposer)
    requires TierInv(net, h, t)
    ensures TierApply(net, cfg, h, t, TStep(propose)).2 == Reported(RefStep(net, cfg, propose, Host(t.s)))
  {
    hide TierInv, StepTiered, PagedStep, RefStep, Host;
    TierSys(net, h, t);
    SysSize(net, t.s);
    StepReports(net, cfg, h, propose, t);
    StepRefines(net, cfg, propose, t.s);
  }

  lemma {:induction false} TierStepsAgree(net: Net, cfg: Config, h: HostConfig, t: Tiered, ops: seq<TierOp>)
    requires TierInv(net, h, t) && CarefulTiered(net, cfg, h, t, ops)
    ensures StepsAgree(net, cfg, h, t, ops)
    decreases |ops|
  {
    hide TierInv, TierApply, SafeToInvalidate, RefStep, Reported;
    if ops != [] {
      if ops[0].TStep? {
        StepAgrees(net, cfg, h, t, ops[0].propose);
      }
      TierApplyInv(net, cfg, h, t, ops[0]);
      var (net1, t1, e) := TierApply(net, cfg, h, t, ops[0]);
      TierStepsAgree(net1, cfg, h, t1, ops[1..]);
    }
  }

  // ----- with a copy in flight -----

  predicate AsyncPasses(op: AsyncOp, k: nat) {
    op.Do? ==> Passes(op.op, k)
  }

  /** A copy that commits moves its session's KV and nothing else. */
  lemma PollSession(net: Net, h: HostConfig, a: Async, wait: bool, cancel: bool, k: nat)
    requires AsyncInv(net, h, a) && k < |a.t.s.reqs|
    ensures var b := PollCopy(h, a, wait, cancel); k < |b.t.s.reqs| && SameSession(a.t.s.reqs[k], b.t.s.reqs[k])
  {
    hide TierInv, Current, CopyGood, ReadBlocks, DecrefAll, AddSnap;
    if a.pending.Some? {
      ReadKeeps(a.t.s.mem, a.pending.value, a.pending.value.blocks);
    }
  }

  lemma AsyncApplyCarries(net: Net, cfg: Config, h: HostConfig, a: Async, op: AsyncOp, k: nat)
    requires AsyncInv(net, h, a) && k < |a.t.s.reqs| && AsyncPasses(op, k)
    ensures var (net', a', e) := AsyncApply(net, cfg, h, a, op);
      net' == net && k < |a'.t.s.reqs| && Carried(net, cfg.eos, a.t.s.reqs[k], a'.t.s.reqs[k], EventTokens(e, k))
  {
    hide TierInv, Current, CopyGood, PollCopy, EnqueueSave, ReadBlocks, TierApply, Carried, SameSession, Harvest;
    var r := a.t.s.reqs[k];
    SessionRefl(r);
    CarriedSession(net, cfg.eos, r, r);
    match op
    case Enqueue(j, launch) => EnqueueCarries(net, cfg, h, a, j, launch, k);
    case ReadChunk(n) =>
    case Poll =>
      PollSession(net, h, a, false, false, k);
      CarriedSession(net, cfg.eos, r, PollCopy(h, a, false, false).t.s.reqs[k]);
    case Do(top) =>
      if top.TEarly? {
        EnqueueCarries(net, cfg, h, a, top.id, InFlight, k);
      } else {
        DoCarries(net, cfg, h, a, top, k);
      }
  }

  lemma EnqueueCarries(net: Net, cfg: Config, h: HostConfig, a: Async, j: nat, launch: Launch, k: nat)
    requires AsyncInv(net, h, a) && k < |a.t.s.reqs|
    ensures var a' := if a.t.s.pool.bs == 0 then a else EnqueueSave(h, a, j, launch);
      k < |a'.t.s.reqs| && Carried(net, cfg.eos, a.t.s.reqs[k], a'.t.s.reqs[k], EventTokens(Done, k))
  {
    hide AsyncInv, EnqueueSave, Carried, SameSession, Harvest;
    SessionRefl(a.t.s.reqs[k]);
    if a.t.s.pool.bs >= 1 {
      EnqueueSession(net, h, a, j, launch, k);
    }
    var a' := if a.t.s.pool.bs == 0 then a else EnqueueSave(h, a, j, launch);
    CarriedSession(net, cfg.eos, a.t.s.reqs[k], a'.t.s.reqs[k]);
  }

  lemma DoCarries(net: Net, cfg: Config, h: HostConfig, a: Async, top: TierOp, k: nat)
    requires AsyncInv(net, h, a) && k < |a.t.s.reqs| && Passes(top, k) && !top.TEarly?
    ensures var (net', a', e) := AsyncApply(net, cfg, h, a, Do(top));
      net' == net && k < |a'.t.s.reqs| && Carried(net, cfg.eos, a.t.s.reqs[k], a'.t.s.reqs[k], EventTokens(e, k))
  {
    hide TierInv, Current, CopyGood, PollCopy, EnqueueSave, ReadBlocks, TierApply, Carried, SameSession, Harvest;
    var r := a.t.s.reqs[k];
    SessionRefl(r);
    CarriedSession(net, cfg.eos, r, r);
    PollSession(net, h, a, true, false, k);
    PollSession(net, h, a, true, true, k);
    PollInv(net, h, a, true, false);
    PollInv(net, h, a, true, true);
    var b := Before(h, a, top);
    CarriedSession(net, cfg.eos, r, b.t.s.reqs[k]);
    ApplyCarries(net, cfg, h, b.t, top, k);
    var (net', t', e) := TierApply(net, cfg, h, b.t, top);
    CarriedTrans(net, cfg.eos, r, b.t.s.reqs[k], t'.s.reqs[k], [], EventTokens(e, k));
    assert [] + EventTokens(e, k) == EventTokens(e, k);
  }

  lemma EnqueueSession(net: Net, h: HostConfig, a: Async, j: nat, launch: Launch, k: nat)
    requires AsyncInv(net, h, a) && a.t.s.pool.bs >= 1 && k < |a.t.s.reqs|
    ensures var b := EnqueueSave(h, a, j, launch); k < |b.t.s.reqs| && SameSession(a.t.s.reqs[k], b.t.s.reqs[k])
  {
    hide TierInv, Stored, BlocksNeededFor, EarlySave;
    if launch.Inline? {
      EarlySession(net, h, a.t, j, launch.copyFails, k);
    }
  }

  lemma {:induction false} AsyncRunCarries(net: Net, cfg: Config, h: HostConfig, a: Async, ops: seq<AsyncOp>, k: nat)
    requires AsyncInv(net, h, a) && k < |a.t.s.reqs| && forall op :: op in ops ==> AsyncPasses(op, k)
    ensures var (net', a', events) := AsyncRun(net, cfg, h, a, ops);
      && AsyncInv(net', h, a') && net' == net && k < |a'.t.s.reqs|
      && Carried(net, cfg.eos, a.t.s.reqs[k], a'.t.s.reqs[k], HarvestRun(events, k))
    decreases |ops|
  {
    hide AsyncInv, AsyncApply, Carried, EventTokens;
    if ops == [] {
      SessionRefl(a.t.s.reqs[k]);
      CarriedSession(net, cfg.eos, a.t.s.reqs[k], a.t.s.reqs[k]);
    } else {
      assert ops[0] in ops && forall op :: op in ops[1..] ==> op in ops;
      AsyncApplyCarries(net, cfg, h, a, ops[0], k);
      AsyncApplyInv(net, cfg, h, a, ops[0]);
      var (_, a1, e) := AsyncApply(net, cfg, h, a, ops[0]);
      AsyncRunCarries(net, cfg, h, a1, ops[1..], k);
      var (_, a2, events) := AsyncRun(net, cfg, h, a1, ops[1..]);
      assert ([e] + events)[1..] == events;
      CarriedTrans(net, cfg.eos, a.t.s.reqs[k], a1.t.s.reqs[k], a2.t.s.reqs[k], EventTokens(e, k), HarvestRun(events, k));
    }
  }

  /** The same for a turn beside which saves are being copied, chunk by chunk. */
  lemma AsyncTurnIsGreedy(net: Net, cfg: Config, h: HostConfig, a: Async, ops: seq<AsyncOp>, k: nat)
    requires AsyncInv(net, h, a) && k < |a.t.s.reqs| && Live(a.t.s.reqs[k]) && forall op :: op in ops ==> AsyncPasses(op, k)
    ensures Decoding(a.t.s.reqs[k])
    ensures var (_, a', events) := AsyncRun(net, cfg, h, a, ops); var r := a.t.s.reqs[k];
      && k < |a'.t.s.reqs| && a'.t.s.reqs[k].tokens == r.tokens + HarvestRun(events, k)
      && (!Live(a'.t.s.reqs[k]) ==> r.tokens + HarvestRun(events, k) == PlainRun(Target(net, r.policy), r, cfg.eos).tokens)
  {
    hide TierInv, AsyncApply, PlainRun, HarvestRun, SysInv, Current, CopyGood;
    AsyncRunCarries(net, cfg, h, a, ops, k);
    var a' := AsyncRun(net, cfg, h, a, ops).1;
    TierSys(net, h, a.t);
    TierSys(net, h, a'.t);
    LiveDecodes(net, a.t.s, k);
    LiveDecodes(net, a'.t.s, k);
  }
}

/** What runs with the block backend emit for each request. */
module BlockTokens {
  import opened Kv
  import opened BlockPool
  import opened Requests
  import opened SpecDecode
  import opened System
  import opened ScheduleInv
  import opened Engine
  import opened Runs
  import opened Outcomes
  import opened St = Steady
  import opened BlockOffload
  import opened BlockRuns
  import R = BlockReclaim
  import G = Groups
  import Tr = Transfer
  import Re = Restore
  import T = OffloadRuns
  import K = TierTokens

  /** Anything but a turn of, an end to, or a reset of request `k`. */
  predicate Passes(op: BlockOp, k: nat) {
    op.BAdd? || op.BStep? || op.BSave? || op.BEvict? || op.BReclaim? || ((op.BResume? || op.BFinish?) && op.id != k)
  }

  lemma {:induction false} MarkAllSys(b: Blocks, reqs: seq<Req>, ids: seq<nat>)
    ensures MarkAll(b, reqs, ids).s == b.s
    decreases |ids|
  {
    if ids != [] {
      MarkAllSys(if ids[0] < |reqs| then MarkUsed(b, ids[0], reqs[ids[0]]) else b, reqs, ids[1..]);
    }
  }

  lemma {:induction false} ForgetFinishedSys(b: Blocks, ids: seq<nat>)
    ensures ForgetFinished(b, ids).s == b.s
    decreases |ids|
  {
    hide DropTails;
    if ids != [] {
      ForgetFinishedSys(if ids[0] < |b.s.reqs| && b.s.reqs[ids[0]].status == Finished then Forget(b, ids[0]) else b, ids[1..]);
    }
  }

  lemma StepReports(net: Net, cfg: Config, propose: Proposer, b: Blocks)
    ensures var (b', e) := StepBlocks(net, cfg, propose, b); var result := PagedStep(net, cfg, propose, b.s);
      e == K.Reported(result) && (!result.Broken? ==> b'.s.reqs == result.s.reqs)
  {
    hide ScheduleLoop, PagedBatch, MarkAll, ForgetFinished;
    var outcome := Schedule(cfg, propose, b.s);
    if outcome.Scheduled? {
      var s' := PagedBatch(net, cfg, outcome.s, outcome.ids).0;
      var b1 := MarkAll(b.(s := s'), outcome.s.reqs, NormalIds(outcome.s, outcome.ids));
      MarkAllSys(b.(s := s'), outcome.s.reqs, NormalIds(outcome.s, outcome.ids));
      ForgetFinishedSys(b1, outcome.ids);
    }
  }

  lemma StepCarries(net: Net, cfg: Config, propose: Proposer, b: Blocks, k: nat)
    requires SysInv(net, b.s) && k < |b.s.reqs|
    ensures var (b', e) := StepBlocks(net, cfg, propose, b);
      k < |b'.s.reqs| && K.Carried(net, cfg.eos, b.s.reqs[k], b'.s.reqs[k], EventTokens(e, k))
  {
    hide StepBlocks, PagedStep, RefStep, K.Carried, FinalTokens, Strip, Harvest, St.Steady, SysInv;
    StepReports(net, cfg, propose, b);
    StepRefines(net, cfg, propose, b.s);
    StepAnswers(net, cfg, propose, b.s);
    StepSteady(net, cfg, propose, b.s);
    HarvestNothing(k);
    var e := StepBlocks(net, cfg, propose, b).1;
    K.CarriedStep(net, cfg.eos, b.s.reqs[k], PagedStep(net, cfg, propose, b.s).s.reqs[k], EventTokens(e, k));
  }

  lemma MemberSession(b: Blocks, k: nat, id: nat, reached: nat, j: nat)
    requires Savable(b, k) && j < |b.s.reqs|
    ensures var b' := SaveMember(b, k, id, reached).0; j < |b'.s.reqs| && G.SameSession(b.s.reqs[j], b'.s.reqs[j])
  {
    hide CommitKeys, Tr.Exported, DecrefAll, DropTails, Gone, BlocksNeededFor;
    var m := ManifestOf(b, k, id);
    CommitSysUpto(m, Tr.Exported(b.s.mem, b.s.reqs[k].table[..Size(m)], b.s.pool.bs, b.s.reqs[k].computed), b, 0, if reached < Size(m) then reached else Size(m));
  }

  lemma ReservedSys(b: Blocks, keys: set<HostKey>, protect: set<HostKey>, evict: set<HostKey>)
    ensures ReserveKeys(b, keys, protect, evict).Some? ==> ReserveKeys(b, keys, protect, evict).value.s == b.s
  {
    hide Gone;
  }

  lemma SaveSession(net: Net, b: Blocks, k: nat, reached: nat, evict: set<HostKey>, j: nat)
    requires BlocksInv(net, b) && j < |b.s.reqs|
    ensures var b' := SaveBlocks(b, k, reached, evict).0; j < |b'.s.reqs| && G.SameSession(b.s.reqs[j], b'.s.reqs[j])
  {
    hide BlocksInv, SaveMember, Savable, ReserveKeys, KeysOf, OldTail, G.SameSession;
    BlocksSys(net, b);
    K.SessionRefl(b.s.reqs[j]);
    if k < |b.s.reqs| {
      var b0 := b.(nextId := b.nextId + 1);
      var reserved := ReserveKeys(b0, KeysOf(ManifestOf(b, k, b.nextId)), OldTail(b, k), evict);
      ReservedSys(b0, KeysOf(ManifestOf(b, k, b.nextId)), OldTail(b, k), evict);
      if reserved.Some? && Savable(reserved.value, k) {
        MemberSession(reserved.value, k, b.nextId, reached, j);
      }
    }
  }

  lemma {:induction false} CommitSysUpto(m: Manifest, source: Memory, b: Blocks, i: nat, reached: nat)
    ensures CommitKeys(m, source, b, i, reached).s == b.s && CommitKeys(m, source, b, i, reached).manifests == b.manifests
    decreases reached - i
  {
    hide KeyAt;
    if i < reached && i < |source| {
      if KeyAt(m, i) in b.store {
        CommitSysUpto(m, source, b, i + 1, reached);
      } else {
        var h := b.nextHandle;
        CommitSysUpto(m, source,
                      b.(store := b.store[KeyAt(m, i) := Replica(h, source[i])], nextHandle := h + 1,
                         ledger := b.ledger.(cohorts := b.ledger.cohorts[h := false], committed := b.ledger.committed + 1)), i + 1, reached);
      }
    }
  }

  lemma ResumeElsewhere(b: Blocks, k: nat, suffix: seq<Token>, q: Params, copyFails: bool)
    requires b.s.pool.bs >= 1
    ensures var (b', e) := ResumeBlocks(b, k, suffix, q, copyFails);
      !e.Emitted? && |b'.s.reqs| == |b.s.reqs| && forall j :: 0 <= j < |b.s.reqs| && j != k ==> b'.s.reqs[j] == b.s.reqs[j]
  {
    hide Resume, DecrefAll, RestoreBlocks;
    if k < |b.s.reqs| {
      ResumeOthers(b.s, k, suffix, q);
      if k in b.manifests {
        RestoreOthers(b, k, b.manifests[k], copyFails);
        var b1 := RestoreBlocks(b, k, b.manifests[k], copyFails).0;
        if b1.s.pool.bs >= 1 {
          ResumeOthers(b1.s, k, suffix, q);
        }
      }
    }
  }

  lemma ResumeOthers(s: Sys, k: nat, suffix: seq<Token>, q: Params)
    requires s.pool.bs >= 1
    ensures var resumed := Resume(s, k, suffix, q.maxTokens, q.hold, q.policy, q.stops, q.ignoreEos);
      resumed.Some? ==> |resumed.value.reqs| == |s.reqs| && forall j :: 0 <= j < |s.reqs| && j != k ==> resumed.value.reqs[j] == s.reqs[j]
  {
    hide BlocksNeededFor;
  }

  lemma RestoreOthers(b: Blocks, k: nat, m: Manifest, copyFails: bool)
    requires k < |b.s.reqs| && b.s.pool.bs >= 1
    ensures var b1 := RestoreBlocks(b, k, m, copyFails).0;
      && |b1.s.reqs| == |b.s.reqs| && SameAsk(b.s.reqs[k], b1.s.reqs[k]) && b1.s.reqs[k].status == b.s.reqs[k].status
      && forall j :: 0 <= j < |b.s.reqs| && j != k ==> b1.s.reqs[j] == b.s.reqs[j]
  {
    hide Re.DeviceHits, Re.RebuildTable, Re.Pins, PlanLength, Tr.Imported, HostSources, ImportedHandles, Reach;
    var valid := Reach(m, PlanLength(b.s.pool, b.store, m, 0));
    Re.PinsCount(Re.DeviceHits(b.s.pool, b.s.reqs[k].tokens, valid, PlanLength(b.s.pool, b.store, m, 0)));
  }

  lemma FinishElsewhere(b: Blocks, k: nat)
    ensures |FinishBlocks(b, k).s.reqs| == |b.s.reqs|
    ensures forall j :: 0 <= j < |b.s.reqs| && j != k ==> FinishBlocks(b, k).s.reqs[j] == b.s.reqs[j]
  {
    hide Release, DropTails;
    if k < |b.s.reqs| && b.s.reqs[k].status != Finished {
      T.ReleaseShape(b.s, k);
    }
  }

  lemma ApplyCarries(net: Net, cfg: Config, b: Blocks, op: BlockOp, k: nat)
    requires BlocksInv(net, b) && k < |b.s.reqs| && Passes(op, k)
    ensures var (net', b', e) := Apply(net, cfg, b, op);
      net' == net && k < |b'.s.reqs| && K.Carried(net, cfg.eos, b.s.reqs[k], b'.s.reqs[k], EventTokens(e, k))
  {
    hide BlocksInv, StepBlocks, ResumeBlocks, SaveBlocks, R.ReclaimGroup, FinishBlocks, HostOp, Prune, K.Carried, G.SameSession, Harvest;
    BlocksSys(net, b);
    var r := b.s.reqs[k];
    K.SessionRefl(r);
    K.CarriedSession(net, cfg.eos, r, r);
    match op
    case BAdd(tokens, q) =>
      T.AddShape(b.s, tokens, q);
      HostOpEvent(b.s, Add(tokens, q));
    case BStep(propose) => StepCarries(net, cfg, propose, b, k);
    case BResume(j, suffix, q, copyFails) => ResumeElsewhere(b, j, suffix, q, copyFails);
    case BSave(j, reached, evict) =>
      SaveSession(net, b, j, reached, evict, k);
      K.CarriedSession(net, cfg.eos, r, SaveBlocks(b, j, reached, evict).0.s.reqs[k]);
    case BReclaim(group, minFree, evict, copies) =>
      R.ReclaimGroupInv(net, b, group, minFree, evict, copies);
      K.CarriedSession(net, cfg.eos, r, R.ReclaimGroup(b, group, minFree, evict, copies).b.s.reqs[k]);
    case BEvict(keys) => EvictShape(b, keys);
    case BFinish(j) => FinishElsewhere(b, j);
  }

  lemma {:induction false} RunCarries(net: Net, cfg: Config, b: Blocks, ops: seq<BlockOp>, k: nat)
    requires BlocksInv(net, b) && k < |b.s.reqs| && forall op :: op in ops ==> Passes(op, k)
    ensures var (net', b', events) := Run(net, cfg, b, ops);
      && BlocksInv(net', b') && net' == net && k < |b'.s.reqs|
      && K.Carried(net, cfg.eos, b.s.reqs[k], b'.s.reqs[k], HarvestRun(events, k))
    decreases |ops|
  {
    hide BlocksInv, Apply, K.Carried, EventTokens;
    if ops == [] {
      K.SessionRefl(b.s.reqs[k]);
      K.CarriedSession(net, cfg.eos, b.s.reqs[k], b.s.reqs[k]);
    } else {
      assert ops[0] in ops && forall op :: op in ops[1..] ==> op in ops;
      ApplyCarries(net, cfg, b, ops[0], k);
      assert !ops[0].BInvalidate? by { NoReset(ops[0], k); }
      ApplyInv(net, cfg, b, ops[0]);
      var (_, b1, e) := Apply(net, cfg, b, ops[0]);
      RunCarries(net, cfg, b1, ops[1..], k);
      var (_, b2, events) := Run(net, cfg, b1, ops[1..]);
      assert ([e] + events)[1..] == events;
      K.CarriedTrans(net, cfg.eos, b.s.reqs[k], b1.s.reqs[k], b2.s.reqs[k], EventTokens(e, k), HarvestRun(events, k));
    }
  }

  lemma NoReset(op: BlockOp, k: nat)
    requires Passes(op, k)
    ensures !op.BInvalidate?
  {
  }

  /** One turn with the block backend: once the request has stopped, what was reported for it is
      what greedy decoding it alone would add. */
  lemma BlockTurnIsGreedy(net: Net, cfg: Config, b: Blocks, ops: seq<BlockOp>, k: nat)
    requires BlocksInv(net, b) && k < |b.s.reqs| && Live(b.s.reqs[k]) && forall op :: op in ops ==> Passes(op, k)
    ensures Decoding(b.s.reqs[k])
    ensures var (_, b', events) := Run(net, cfg, b, ops); var r := b.s.reqs[k];
      && k < |b'.s.reqs| && b'.s.reqs[k].tokens == r.tokens + HarvestRun(events, k)
      && (!Live(b'.s.reqs[k]) ==> r.tokens + HarvestRun(events, k) == PlainRun(Target(net, r.policy), r, cfg.eos).tokens)
  {
    hide BlocksInv, Apply, PlainRun, HarvestRun, SysInv;
    RunCarries(net, cfg, b, ops, k);
    var b' := Run(net, cfg, b, ops).1;
    BlocksSys(net, b);
    BlocksSys(net, b');
    K.LiveDecodes(net, b.s, k);
    K.LiveDecodes(net, b'.s, k);
  }

  /** An accepted resume continues the history with exactly the suffix, however much of its KV
      could be restored. */
  lemma ResumedAsks(b: Blocks, k: nat, suffix: seq<Token>, q: Params, copyFails: bool)
    requires k < |b.s.reqs| && b.s.pool.bs >= 1
    ensures var (b', e) := ResumeBlocks(b, k, suffix, q, copyFails);
      e == Done ==> |b'.s.reqs| == |b.s.reqs| && SameAsk(K.Turn(b.s.reqs[k], suffix, q), b'.s.reqs[k]) && Live(b'.s.reqs[k])
  {
    hide RestoreBlocks, Resume, DecrefAll;
    K.ResumeAsks(b.s, k, suffix, q);
    if k in b.manifests {
      RestoreOthers(b, k, b.manifests[k], copyFails);
      var b1 := RestoreBlocks(b, k, b.manifests[k], copyFails).0;
      if b1.s.pool.bs >= 1 {
        K.ResumeAsks(b1.s, k, suffix, q);
      }
    }
  }

  /** A turn of a parked session, through saves, evictions and a partial restore. */
  lemma ParkedTurnIsGreedy(net: Net, cfg: Config, b: Blocks, k: nat, before: seq<BlockOp>,
                           suffix: seq<Token>, q: Params, copyFails: bool, after: seq<BlockOp>)
    requires BlocksInv(net, b) && k < |b.s.reqs| && b.s.reqs[k].status == Paused
    requires (forall op :: op in before ==> Passes(op, k)) && (forall op :: op in after ==> Passes(op, k))
    ensures var b1 := Run(net, cfg, b, before).1;
      b1.s.pool.bs >= 1 &&
      var (b2, e) := ResumeBlocks(b1, k, suffix, q, copyFails);
      e == Done ==>
        var (_, b3, events) := Run(net, cfg, b2, after); var asked := K.Turn(b.s.reqs[k], suffix, q);
        && Decoding(asked) && k < |b3.s.reqs|
        && b3.s.reqs[k].tokens == b.s.reqs[k].tokens + suffix + HarvestRun(events, k)
        && (!Live(b3.s.reqs[k]) ==> b3.s.reqs[k].tokens == PlainRun(Target(net, q.policy), asked, cfg.eos).tokens)
  {
    hide BlocksInv, Apply, PlainRun, HarvestRun, SysInv, ResumeBlocks, Run;
    RunCarries(net, cfg, b, before, k);
    var b1 := Run(net, cfg, b, before).1;
    BlocksSys(net, b1);
    K.SessionTurn(net, cfg.eos, b.s.reqs[k], b1.s.reqs[k], suffix, q, HarvestRun(Run(net, cfg, b, before).2, k));
    ResumedAsks(b1, k, suffix, q, copyFails);
    ResumeBlocksInv(net, b1, k, suffix, q, copyFails);
    var (b2, e) := ResumeBlocks(b1, k, suffix, q, copyFails);
    if e == Done {
      BlockTurnIsGreedy(net, cfg, b2, after, k);
      var asked, r := K.Turn(b.s.reqs[k], suffix, q), b2.s.reqs[k];
      K.AskTrans(asked, K.Turn(b1.s.reqs[k], suffix, q), r);
      assert Decoding(asked);
      PlainRunSame(Target(net, q.policy), asked, r, cfg.eos);
    }
  }
}

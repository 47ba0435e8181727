/** Whole runs with the block backend: the ledger balances, every session on the host is on the
    books, and a restore gives back exactly what was saved. */
module BlockRuns {
  import opened Kv
  import opened BlockPool
  import opened Requests
  import opened Ownership
  import opened System
  import opened SystemInv
  import opened ScheduleInv
  import opened Runs
  import opened Geometry
  import opened Transfer
  import opened Restore
  import O = Offload
  import T = OffloadRuns
  import opened BlockOffload
  import opened BlockReclaim

  datatype BlockOp =
    | BAdd(tokens: seq<Token>, params: Params)
    | BStep(propose: Proposer)
    | BResume(id: nat, suffix: seq<Token>, params: Params, copyFails: bool)
    | BSave(id: nat, reached: nat, evict: set<HostKey>)
    | BReclaim(group: seq<nat>, minFree: nat, evict: set<HostKey>, copies: map<nat, nat>)
    | BEvict(keys: set<HostKey>)
    | BFinish(id: nat)
    | BAbort
    | BRestart(net: Net, contents: Memory, weightChange: bool)
    | BInvalidate(net: Net, weightChange: bool)

  ghost function Apply(net: Net, cfg: Config, b: Blocks, op: BlockOp): (Net, Blocks, Event) {
    if b.s.pool.bs == 0 then (net, b, Corrupt)
    else
      match op
      case BAdd(tokens, q) => var (s', e) := HostOp(b.s, Add(tokens, q)); (net, b.(s := s'), e)
      case BStep(propose) => var (b', e) := StepBlocks(net, cfg, propose, b); (net, b', e)
      case BResume(k, suffix, q, copyFails) => var (b', e) := ResumeBlocks(b, k, suffix, q, copyFails); (net, b', e)
      case BSave(k, reached, evict) => (net, SaveBlocks(b, k, reached, evict).0, Done)
      case BReclaim(group, minFree, evict, reached) => (net, ReclaimGroup(b, group, minFree, evict, reached).b, Done)
      case BEvict(keys) => (net, EvictHost(b, keys), Done)
      case BFinish(k) => (net, FinishBlocks(b, k), Done)
      case BAbort => (net, FinishAll(b, b.s.waiting + b.s.running + T.OnHost(b.s.reqs)), Done)
      case BRestart(net', contents, change) => (net', Forgotten(b, Recontent(ParkAll(InvalidateAll(b.s)), contents), change), Done)
      case BInvalidate(net', change) => (net', Forgotten(b, InvalidateAll(b.s), change), Done)
  }

  /** Everything on the host is dropped, perhaps because the weights change. */
  function Forgotten(b: Blocks, s: Sys, weightChange: bool): Blocks {
    ForgetAll(b).(s := s, weights := if weightChange then b.weights + 1 else b.weights)
  }

  // ----- whole runs -----

  predicate Resets(op: BlockOp) {
    op.BRestart? || op.BInvalidate?
  }

  lemma ApplyInv(net: Net, cfg: Config, b: Blocks, op: BlockOp)
    requires BlocksInv(net, b) && (op.BInvalidate? ==> SafeToInvalidate(b.s))
    ensures var (net', b', e) := Apply(net, cfg, b, op);
      && BlocksInv(net', b') && e != Corrupt && NoNewer(b, b')
      && (if Resets(op) then b'.manifests == map[] else net' == net)
  {
    hide BlocksInv, StepBlocks, ResumeBlocks, SaveBlocks, SaveOutcome, ReclaimGroup, EvictHost, FinishBlocks, FinishAll, InvalidateAll, Recontent, ParkAll, ForgetAll, SafeToInvalidate, HostOp, T.OnHost;
    BlocksSys(net, b);
    match op
    case BAdd(tokens, q) => AddBlocksInv(net, b, tokens, q); HostOpEvent(b.s, Add(tokens, q));
    case BStep(propose) => StepBlocksInv(net, cfg, propose, b);
    case BResume(k, suffix, q, copyFails) => ResumeBlocksInv(net, b, k, suffix, q, copyFails); ResumeBooks(b, k, suffix, q, copyFails);
    case BSave(k, reached, evict) => SaveBlocksInv(net, b, k, reached, evict);
    case BReclaim(group, minFree, evict, reached) => GroupNoNewer(net, b, group, minFree, evict, reached);
    case BEvict(keys) => EvictHostInv(net, b, keys);
    case BFinish(k) => FinishBlocksInv(net, b, k);
    case BAbort => FinishAllInv(net, b, b.s.waiting + b.s.running + T.OnHost(b.s.reqs));
    case _ => ResetInv(net, cfg, b, op);
  }

  lemma ResetInv(net: Net, cfg: Config, b: Blocks, op: BlockOp)
    requires BlocksInv(net, b) && Resets(op) && (op.BInvalidate? ==> SafeToInvalidate(b.s))
    ensures var (net', b', e) := Apply(net, cfg, b, op); BlocksInv(net', b') && e != Corrupt && NoNewer(b, b') && b'.manifests == map[]
  {
    hide *;
    BlocksSys(net, b);
    ResetUnfolds(net, cfg, b, op);
    match op
    case BRestart(net', contents, change) =>
      RestartInv(net, net', b.s, contents);
      T.ResetResidency(b.s, contents);
      ForgottenInv(net, net', b, Recontent(ParkAll(InvalidateAll(b.s)), contents), change);
    case BInvalidate(net', change) =>
      InvalidateExact(net, net', b.s);
      T.ResetResidency(b.s, []);
      ForgottenInv(net, net', b, InvalidateAll(b.s), change);
  }

  lemma ResetUnfolds(net: Net, cfg: Config, b: Blocks, op: BlockOp)
    requires Resets(op) && b.s.pool.bs >= 1
    ensures op.BRestart? || op.BInvalidate?
    ensures var s := if op.BRestart? then Recontent(ParkAll(InvalidateAll(b.s)), op.contents) else InvalidateAll(b.s);
      Apply(net, cfg, b, op) == (op.net, Forgotten(b, s, op.weightChange), Done)
  {
    hide InvalidateAll, Recontent, ParkAll, Forgotten, StepBlocks, ResumeBlocks, SaveBlocks, ReclaimGroup, EvictHost, FinishBlocks, FinishAll,
         HostOp, T.OnHost;
  }

  lemma ForgottenInv(net: Net, net': Net, b: Blocks, s': Sys, weightChange: bool)
    requires BlocksInv(net, b) && SysInv(net', s') && forall k :: 0 <= k < |s'.reqs| ==> s'.reqs[k].residency == NoKv
    ensures var b' := Forgotten(b, s', weightChange); BlocksInv(net', b') && NoNewer(b, b') && b'.manifests == map[]
  {
    hide BlocksInv, SysInv, ForgetAll;
    T.SysSize(net', s');
    ForgetAllInv(net, net', b, s', if weightChange then b.weights + 1 else b.weights);
  }

  lemma ResumeBooks(b: Blocks, k: nat, suffix: seq<Token>, q: Params, copyFails: bool)
    requires b.s.pool.bs >= 1
    ensures var b' := ResumeBlocks(b, k, suffix, q, copyFails).0; b'.manifests == b.manifests && b'.nextId == b.nextId
  {
    hide Resume, DecrefAll, DeviceHits, RebuildTable, Pins, PlanLength, Imported;
    if k < |b.s.reqs| && k in b.manifests {
      PinsCount(DeviceHits(b.s.pool, b.s.reqs[k].tokens, Reach(b.manifests[k], PlanLength(b.s.pool, b.store, b.manifests[k], 0)), PlanLength(b.s.pool, b.store, b.manifests[k], 0)));
    }
  }

  lemma GroupNoNewer(net: Net, b: Blocks, group: seq<nat>, minFree: nat, evict: set<HostKey>, reached: map<nat, nat>)
    requires BlocksInv(net, b)
    ensures var b' := ReclaimGroup(b, group, minFree, evict, reached).b; BlocksInv(net, b') && NoNewer(b, b')
  {
    hide BlocksInv, ReclaimGroup, GroupOutcome, SameFrame;
    ReclaimGroupInv(net, b, group, minFree, evict, reached);
  }

  ghost function Run(net: Net, cfg: Config, b: Blocks, ops: seq<BlockOp>): (Net, Blocks, seq<Event>)
    decreases |ops|
  {
    if ops == [] then (net, b, [])
    else
      var (net1, b1, e) := Apply(net, cfg, b, ops[0]);
      var (net2, b2, more) := Run(net1, cfg, b1, ops[1..]);
      (net2, b2, [e] + more)
  }

  ghost predicate CarefulRun(net: Net, cfg: Config, b: Blocks, ops: seq<BlockOp>)
    decreases |ops|
  {
    ops == [] || ((ops[0].BInvalidate? ==> SafeToInvalidate(b.s))
                  && var (net1, b1, _) := Apply(net, cfg, b, ops[0]); CarefulRun(net1, cfg, b1, ops[1..]))
  }

  /** Every run keeps the invariant; a manifest that is still registered is the one that was
      saved, under the weights it was saved under. */
  lemma {:induction false} RunInv(net: Net, cfg: Config, b: Blocks, ops: seq<BlockOp>)
    requires BlocksInv(net, b) && CarefulRun(net, cfg, b, ops)
    ensures var (net', b', events) := Run(net, cfg, b, ops);
      && BlocksInv(net', b') && Corrupt !in events && NoNewer(b, b')
      && forall k :: k in b'.manifests && b'.manifests[k].id < b.nextId ==> net' == net
    decreases |ops|
  {
    hide BlocksInv, Apply, SafeToInvalidate;
    if ops != [] {
      ApplyInv(net, cfg, b, ops[0]);
      var (net1, b1, e) := Apply(net, cfg, b, ops[0]);
      RunInv(net1, cfg, b1, ops[1..]);
      var b' := Run(net1, cfg, b1, ops[1..]).1;
      forall k | k in b'.manifests && b'.manifests[k].id < b.nextId
        ensures k in b.manifests && b'.manifests[k] == b.manifests[k] && !Resets(ops[0])
      {
        assert k in b1.manifests && b'.manifests[k] == b1.manifests[k];
      }
    }
  }

  // ----- the round trip -----

  lemma SavedTable(net: Net, b: Blocks, k: nat)
    requires BlocksInv(net, b) && k < |b.s.reqs|
    ensures Holds(net, b.s.mem, b.s.reqs[k].table, b.s.reqs[k].tokens, b.s.reqs[k].computed)
  {
    hide SysInv, StoreRight, LedgerGood, Local, Rest, Holds;
    O.KvOf(net, b.s);
    At(net, b.s, k);
    O.LocalHolds(net, b.s.pool, b.s.mem, Rest(b.s.reqs, k), b.s.reqs[k]);
  }

  lemma SamePrefix(net: Net, mem: Memory, table: seq<nat>, mem': Memory, table': seq<nat>, tokens: seq<Token>, valid: nat, n: nat)
    requires Holds(net, mem, table, tokens, valid) && Holds(net, mem', table', tokens, n) && n <= valid
    ensures T.SameGather(mem, table, mem', table', n)
  {
    hide Flat, RefCells;
    HoldsLess(net, mem, table, tokens, valid, n);
  }

  /** A successful restore covers a prefix of what request `r` had computed, as far as the
      plan reaches, and gathers the entries that `r`'s table gathered from `mem`. */
  ghost predicate RestoresSaved(mem: Memory, r: Req, b: Blocks, k: nat, copyFails: bool) {
    && k < |b.s.reqs| && b.s.pool.bs >= 1 && k in b.manifests
    && var (b', ok) := RestoreBlocks(b, k, b.manifests[k], copyFails);
      && |b'.s.reqs| == |b.s.reqs| && (ok <==> !copyFails && RoomToRestore(b, b.manifests[k]))
      && (ok ==> b'.s.reqs[k].computed == Reach(b.manifests[k], PlanLength(b.s.pool, b.store, b.manifests[k], 0)) <= r.computed
                 && T.SameGather(mem, r.table, b'.s.mem, b'.s.reqs[k].table, b'.s.reqs[k].computed))
  }

  /** Save, then anything at all, then restore: whatever part of the history is still covered
      by device and host blocks gathers exactly the entries that were saved for it. */
  lemma BlockRoundTrip(net: Net, cfg: Config, b: Blocks, k: nat, reached: nat, evict: set<HostKey>, ops: seq<BlockOp>, copyFails: bool)
    requires BlocksInv(net, b) && k < |b.s.reqs| && b.s.reqs[k].status == Paused
    requires SaveBlocks(b, k, reached, evict).1 == Saved
    requires CarefulRun(net, cfg, SaveBlocks(b, k, reached, evict).0, ops)
    ensures var b2 := Run(net, cfg, SaveBlocks(b, k, reached, evict).0, ops).1;
      k in b2.manifests && b2.manifests[k].id == b.nextId && k < |b2.s.reqs| && b2.s.reqs[k].residency == OnCpu ==>
        RestoresSaved(b.s.mem, b.s.reqs[k], b2, k, copyFails)
  {
    hide BlocksInv, SaveBlocks, RestoreBlocks, Run, CarefulRun, T.SameGather, PlanLength, Rest, RolledBack, Reach, Holds, RoomToRestore;
    BlocksSys(net, b);
    var b1 := SaveBlocks(b, k, reached, evict).0;
    SaveBlocksInv(net, b, k, reached, evict);
    SavedTable(net, b, k);
    SavedNext(net, b, k, reached, evict);
    RunInv(net, cfg, b1, ops);
    var (net2, b2, _) := Run(net, cfg, b1, ops);
    if k in b2.manifests && b2.manifests[k].id == b.nextId && k < |b2.s.reqs| && b2.s.reqs[k].residency == OnCpu {
      var m := b2.manifests[k];
      BlocksSys(net2, b2);
      RestoreBlocksInv(net2, b2, k, m, copyFails);
      RestoreBlocksExact(net2, b2, k, m, copyFails);
      var (b3, ok) := RestoreBlocks(b2, k, m, copyFails);
      if ok {
        ReachBounds(m, PlanLength(b2.s.pool, b2.store, m, 0));
        SamePrefix(net, b.s.mem, b.s.reqs[k].table, b3.s.mem, b3.s.reqs[k].table, m.tokens, m.valid, b3.s.reqs[k].computed);
      }
    }
  }

  lemma SavedNext(net: Net, b: Blocks, k: nat, reached: nat, evict: set<HostKey>)
    requires BlocksInv(net, b) && SaveBlocks(b, k, reached, evict).1 == Saved
    ensures var b' := SaveBlocks(b, k, reached, evict).0;
      k in b'.manifests && b'.manifests[k].id == b.nextId < b'.nextId && b'.manifests[k].tokens == b.s.reqs[k].tokens
  {
    hide BlocksInv, ReserveKeys, CommitKeys, Exported, DecrefAll, DropTails, Gone, KeysOf, OldTail, BlocksNeededFor;
    var m := ManifestOf(b, k, b.nextId);
    var b0 := b.(nextId := b.nextId + 1);
    BlockOffload.NextIdInv(net, b, b.nextId + 1);
    ReservedInv(net, b0, KeysOf(m), OldTail(b, k), evict);
    var b1 := ReserveKeys(b0, KeysOf(m), OldTail(b, k), evict).value;
    CommitBooks(m, Exported(b1.s.mem, b1.s.reqs[k].table[..Size(m)], b1.s.pool.bs, b1.s.reqs[k].computed), b1, 0, Size(m));
  }

  /** In every reachable state: the ledger balances, and a session that says it is on the host
      has a manifest for its whole history. */
  lemma BlocksMeaning(net: Net, b: Blocks, k: nat)
    requires BlocksInv(net, b) && k < |b.s.reqs|
    ensures b.ledger.committed == Used(b) + Unused(b) + StillStored(b) && |b.store.Keys| <= b.capacity
    ensures b.s.reqs[k].residency == OnCpu ==> k in b.manifests && b.manifests[k].tokens == b.s.reqs[k].tokens && b.s.reqs[k].table == []
  {
    hide SysInv, StoreRight, LedgerGood, Used, Unused, StillStored;
    BlocksLedger(net, b);
    LedgerBalances(b);
    assert b.s.reqs[k].residency == OnCpu ==> OnBooks(b, k);
  }

  lemma BootBlocks(net: Net, bs: nat, blocks: nat, caching: bool, contents: Memory, capacity: nat)
    requires bs >= 1 && |contents| == blocks && MemoryShape(contents, bs)
    ensures BlocksInv(net, Blocks(Boot(bs, blocks, caching, contents), map[], map[], map[], Ledger(map[], 0, 0, 0), 0, 0, 0, capacity))
  {
    hide SysInv;
    BootInv(net, bs, blocks, caching, contents);
    T.SysSize(net, Boot(bs, blocks, caching, contents));
    var none: map<nat, bool> := map[];
    assert none.Keys == {};
  }
}

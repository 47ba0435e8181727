/** Whole runs with host memory: every operation keeps the books balanced and every paused
    session reachable, and a restore gives back exactly what was saved. */
module OffloadRuns {
  import opened Kv
  import opened BlockPool
  import opened Requests
  import opened Ownership
  import opened System
  import opened SystemInv
  import opened ScheduleInv
  import opened Engine
  import opened Geometry
  import opened Runs
  import opened Outcomes
  import opened Steady
  import opened Transfer
  import opened Restore
  import opened PlainRestore
  import opened Offload
  import opened Groups

  datatype TierOp =
    | TAdd(tokens: seq<Token>, params: Params)
    | TStep(propose: Proposer)
    | TResume(id: nat, suffix: seq<Token>, params: Params, copyFails: bool)
    | TSave(id: nat, copyFails: bool)
    | TEarly(id: nat, copyFails: bool)
    | TEvict
    | TReclaim(group: seq<nat>, minFree: nat, fails: set<nat>)
    | TFinish(id: nat)
    | TAbort
    | TRestart(net: Net, contents: Memory, weightChange: bool)
    | TInvalidate(net: Net, weightChange: bool)

  /** `finish_request`. */
  function FinishTiered(h: HostConfig, t: Tiered, k: nat): Tiered {
    if k >= |t.s.reqs| || t.s.reqs[k].status == Finished then t
    else t.(s := Release(t.s, k), books := Forget(h, t.books, k))
  }

  function FinishAll(h: HostConfig, t: Tiered, ids: seq<nat>): Tiered
    decreases |ids|
  {
    if ids == [] then t else FinishAll(h, FinishTiered(h, t, ids[0]), ids[1..])
  }

  /** Paused requests whose KV is on the host, which an abort also takes. */
  function OnHost(reqs: seq<Req>): seq<nat> {
    if reqs == [] then []
    else
      var n := |reqs| - 1;
      OnHost(reqs[..n]) + (if reqs[n].status == Paused && reqs[n].residency == OnCpu then [n] else [])
  }

  /** A step, with the restores it proves useful or wasted. */
  ghost function StepTiered(net: Net, cfg: Config, h: HostConfig, propose: Proposer, t: Tiered): (Tiered, Event) {
    match Schedule(cfg, propose, t.s)
    case Scheduled(mid, ids) =>
      var (s', emitted) := PagedBatch(net, cfg, mid, ids);
      (t.(s := s', books := MarkAll(t.books, mid.reqs, NormalIds(mid, ids))), Emitted(emitted))
    case Idle(s') => (t.(s := s'), Emitted([]))
    case TooLarge(s') => (t.(s := s'), Rejected)
    case _ => (t, Corrupt)
  }

  ghost function TierApply(net: Net, cfg: Config, h: HostConfig, t: Tiered, op: TierOp): (Net, Tiered, Event) {
    if t.s.pool.bs == 0 then (net, t, Corrupt)
    else
      match op
      case TAdd(tokens, q) => var (s', e) := HostOp(t.s, Add(tokens, q)); (net, t.(s := s'), e)
      case TStep(propose) => var (t', e) := StepTiered(net, cfg, h, propose, t); (net, t', e)
      case TResume(k, suffix, q, copyFails) => var (t', e) := ResumeTiered(h, t, k, suffix, q, copyFails); (net, t', e)
      case TSave(k, copyFails) => (net, Save(h, t, k, copyFails).0, Done)
      case TEarly(k, copyFails) => (net, EarlySave(h, t, k, copyFails).0, Done)
      case TEvict => (net, if t.books.snaps == [] then t else EvictOldest(h, t), Done)
      case TReclaim(group, minFree, fails) => (net, ReclaimGroup(h, t, group, minFree, fails).t, Done)
      case TFinish(k) => (net, FinishTiered(h, t, k), Done)
      case TAbort => (net, FinishAll(h, t, t.s.waiting + t.s.running + OnHost(t.s.reqs)), Done)
      case TRestart(net', contents, change) =>
        (net', Tiered(Recontent(ParkAll(InvalidateAll(t.s)), contents), ForgetAll(h, t.books), t.nextId, if change then t.weights + 1 else t.weights), Done)
      case TInvalidate(net', change) =>
        (net', Tiered(InvalidateAll(t.s), ForgetAll(h, t.books), t.nextId, if change then t.weights + 1 else t.weights), Done)
  }

  // ----- steps -----

  lemma {:induction false} MarkAllKeeps(h: HostConfig, b: Books, reqs: seq<Req>, ids: seq<nat>)
    requires Balanced(h, b)
    ensures Balanced(h, MarkAll(b, reqs, ids)) && MarkAll(b, reqs, ids).snaps == b.snaps
    decreases |ids|
  {
    hide Balanced, MarkUsed;
    if ids != [] {
      if ids[0] < |reqs| {
        MarkUsedBalanced(h, b, ids[0], reqs[ids[0]]);
      }
      MarkAllKeeps(h, if ids[0] < |reqs| then MarkUsed(b, ids[0], reqs[ids[0]]) else b, reqs, ids[1..]);
    }
  }

  ghost predicate OneEach(uses: seq<Use>) {
    forall i, j :: 0 <= i < j < |uses| ==> uses[i].owner != uses[j].owner
  }

  lemma {:induction false} WithoutUse(uses: seq<Use>, use: Use)
    requires OneEach(uses) && use in uses
    ensures OneEach(Without(uses, use))
    ensures forall u :: u in Without(uses, use) <==> u in uses && u.owner != use.owner
  {
    var tail := uses[1..];
    assert forall u :: u in uses <==> u == uses[0] || u in tail;
    assert forall u :: u in tail ==> u.owner != uses[0].owner;
    if uses[0] != use {
      WithoutUse(tail, use);
      var rest := [uses[0]] + Without(tail, use);
      forall i, j | 0 <= i < j < |rest|
        ensures rest[i].owner != rest[j].owner
      {
        assert rest[j] in Without(tail, use);
      }
    }
  }

  /** After a step no restore of a request that ran is still pending. */
  lemma {:induction false} MarkAllClears(b: Books, reqs: seq<Req>, ids: seq<nat>)
    requires OneEach(b.uses) && forall k :: k in ids ==> k < |reqs|
    ensures var b' := MarkAll(b, reqs, ids);
      OneEach(b'.uses) && forall u :: u in b'.uses <==> u in b.uses && u.owner !in ids
    decreases |ids|
  {
    hide OneEach;
    if ids != [] {
      var k := ids[0];
      assert k in ids && forall j :: j in ids <==> j == k || j in ids[1..];
      FindUseMeaning(b.uses, k);
      NoUseFor(b.uses, k);
      if FindUse(b.uses, k).Some? {
        WithoutUse(b.uses, FindUse(b.uses, k).value);
      }
      MarkAllClears(MarkUsed(b, k, reqs[k]), reqs, ids[1..]);
    }
  }

  lemma {:induction false} NoUseFor(uses: seq<Use>, k: nat)
    ensures FindUse(uses, k).None? ==> forall u :: u in uses ==> u.owner != k
  {
    if uses != [] {
      NoUseFor(uses[1..], k);
      assert forall u :: u in uses <==> u == uses[0] || u in uses[1..];
    }
  }

  /** A request that has emitted nothing since its restore is still prefilling, so its first
      row after the restore is an ordinary one. */
  lemma UnheardIsNormal(bs: nat, blocks: nat, r: Req)
    requires bs >= 1 && Planned(bs, blocks, r) && Unheard(r)
    ensures r.draft == 0
  {
    hide BlocksNeededFor;
  }

  lemma StepKeepsUses(net: Net, cfg: Config, t: Tiered, mid: Sys, ids: seq<nat>, s': Sys)
    requires UsesGood(t) && Unanswered(t.s.reqs, mid.reqs) && StepInv(net, mid, ids)
    requires |s'.reqs| == |mid.reqs| && forall k: nat :: k < |mid.reqs| && k !in ids ==> s'.reqs[k] == mid.reqs[k]
    requires forall k :: 0 <= k < |t.s.reqs| ==> t.s.reqs[k].draft == 0
    ensures UsesGood(t.(s := s', books := MarkAll(t.books, mid.reqs, NormalIds(mid, ids))))
  {
    hide KvInv, Queues, Planned, Shaped;
    KvShape(net, mid);
    var normal := NormalIds(mid, ids);
    PartitionMembers(mid, ids);
    MarkAllClears(t.books, mid.reqs, normal);
    var b' := MarkAll(t.books, mid.reqs, normal);
    forall u | u in b'.uses
      ensures u.owner < |s'.reqs| && Unheard(s'.reqs[u.owner])
    {
      var k := u.owner;
      assert u in t.books.uses && Unheard(t.s.reqs[k]);
      assert SameAsk(Strip(t.s.reqs[k]), Strip(mid.reqs[k])) && Live(mid.reqs[k]);
      StripTwice(mid.reqs[k]);
      StripTwice(t.s.reqs[k]);
      if k in ids {
        UnheardIsNormal(mid.pool.bs, |mid.pool.ref|, mid.reqs[k]);
      }
      assert k in ids ==> k in normal;
    }
  }

  lemma StripTwice(r: Req)
    ensures Strip(r).prompt == r.prompt && Strip(r).status == r.status
  {
  }

  lemma StepTieredInv(net: Net, cfg: Config, h: HostConfig, propose: Proposer, t: Tiered)
    requires TierInv(net, h, t)
    ensures var (t', event) := StepTiered(net, cfg, h, propose, t);
      TierInv(net, h, t') && event != Corrupt && t'.s.reqs == (if PagedStep(net, cfg, propose, t.s).Broken? then t.s.reqs else PagedStep(net, cfg, propose, t.s).s.reqs)
  {
    hide SysInv, StepInv, ScheduleLoop, PagedBatch, Stored, Balanced, SnapsGood, UsesGood, AllSteady, Unanswered;
    var bound := cfg.maxSeqs + |t.s.running| + |t.s.waiting| + 1;
    StepRefines(net, cfg, propose, t.s);
    StepSteady(net, cfg, propose, t.s);
    ScheduleInvariant(net, cfg, propose, t.s, bound);
    ScheduleAsks(net, cfg, propose, t.s, bound);
    NoDraftsBetween(net, t.s);
    var t' := StepTiered(net, cfg, h, propose, t).0;
    var outcome := Schedule(cfg, propose, t.s);
    if outcome.Scheduled? {
      BatchSteady(net, cfg, outcome.s, outcome.ids);
      SteadySize(outcome.s.reqs, t'.s.reqs);
      StepKeepsUses(net, cfg, t, outcome.s, outcome.ids, t'.s);
      MarkAllKeeps(h, t.books, outcome.s.reqs, NormalIds(outcome.s, outcome.ids));
    } else {
      IdleKeepsUses(t, t');
    }
    SteadySnaps(net, h, t, t');
  }

  lemma SteadySize(a: seq<Req>, b: seq<Req>)
    requires AllSteady(a, b)
    ensures |a| == |b|
  {
  }

  lemma IdleKeepsUses(t: Tiered, t': Tiered)
    requires UsesGood(t) && t'.books.uses == t.books.uses && Unanswered(t.s.reqs, t'.s.reqs)
    ensures UsesGood(t')
  {
    forall u | u in t'.books.uses
      ensures u.owner < |t'.s.reqs| && Unheard(t'.s.reqs[u.owner])
    {
      StripTwice(t'.s.reqs[u.owner]);
      StripTwice(t.s.reqs[u.owner]);
    }
  }

  lemma NoDraftsBetween(net: Net, s: Sys)
    requires SysInv(net, s)
    ensures forall k :: 0 <= k < |s.reqs| ==> s.reqs[k].draft == 0
  {
    hide KvInv, AllShaped, Queues;
    forall k | 0 <= k < |s.reqs|
      ensures s.reqs[k].draft == 0
    {
      OwnerScheduled(net, s, k);
    }
  }

  lemma SteadySnaps(net: Net, h: HostConfig, t: Tiered, t': Tiered)
    requires TierInv(net, h, t) && AllSteady(t.s.reqs, t'.s.reqs) && t'.books.snaps == t.books.snaps && t'.nextId == t.nextId
    ensures SnapsGood(net, t')
  {
    hide SysInv, Stored, Balanced, UsesGood, SnapGood, Find;
    forall snap | snap in t'.books.snaps
      ensures SnapGood(net, t', snap)
    {
      SnapOwner(net, t, snap);
      SnapStays(net, t, t', snap);
    }
  }

  // ----- the other operations -----

  lemma AddTieredInv(net: Net, h: HostConfig, t: Tiered, tokens: seq<Token>, q: Params)
    requires TierInv(net, h, t) && t.s.pool.bs >= 1
    ensures TierInv(net, h, t.(s := HostOp(t.s, Add(tokens, q)).0))
  {
    hide SysInv, Stored, Balanced, SnapGood, Find, BlocksNeededFor;
    if tokens != [] && q.maxTokens >= 1 {
      AddInv(net, t.s, tokens, q);
      AddShape(t.s, tokens, q);
    }
    var t' := t.(s := HostOp(t.s, Add(tokens, q)).0);
    AddShape(t.s, tokens, q);
    forall snap | snap in t'.books.snaps
      ensures SnapGood(net, t', snap)
    {
      SnapOwner(net, t, snap);
      SnapStays(net, t, t', snap);
    }
    UsesAfterAdd(t, t');
  }

  lemma AddShape(s: Sys, tokens: seq<Token>, q: Params)
    requires s.pool.bs >= 1
    ensures var s' := HostOp(s, Add(tokens, q)).0;
      && |s.reqs| <= |s'.reqs| <= |s.reqs| + 1 && s'.reqs[..|s.reqs|] == s.reqs
      && (forall k :: 0 <= k < |s.reqs| ==> s'.reqs[k] == s.reqs[k])
      && forall k :: |s.reqs| <= k < |s'.reqs| ==> s'.reqs[k].residency == NoKv
  {
    hide AttachLoop, BlocksNeededFor;
  }

  lemma UsesAfterAdd(t: Tiered, t': Tiered)
    requires UsesGood(t) && t'.books == t.books && |t.s.reqs| <= |t'.s.reqs|
    requires forall k :: 0 <= k < |t.s.reqs| ==> t'.s.reqs[k] == t.s.reqs[k]
    ensures UsesGood(t')
  {
  }

  /** A finished request takes its snapshot and its pending restore with it. */
  lemma FinishTieredInv(net: Net, h: HostConfig, t: Tiered, k: nat)
    requires TierInv(net, h, t)
    ensures TierInv(net, h, FinishTiered(h, t, k)) && FinishTiered(h, t, k).nextId == t.nextId
    ensures forall x :: x in FinishTiered(h, t, k).books.snaps ==> x in t.books.snaps
  {
    hide SysInv, Stored, Balanced, SnapGood, Find, Forget, Release;
    var t' := FinishTiered(h, t, k);
    if k < |t.s.reqs| && t.s.reqs[k].status != Finished {
      TierSys(net, h, t);
      ReleaseInv(net, t.s, k);
      ReleaseShape(t.s, k);
      ForgetBalanced(h, t.books, k);
      TierOrdered(net, h, t);
      ForgetShape(h, t.books, k);
      forall snap | snap in t'.books.snaps
        ensures SnapGood(net, t', snap)
      {
        SnapOwner(net, t, snap);
        SnapStays(net, t, t', snap);
      }
      forall j | 0 <= j < |t'.s.reqs| && t'.s.reqs[j].residency == OnCpu
        ensures Find(t'.books.snaps, j).Some?
      {
        FindElsewhere(t.books.snaps, t'.books.snaps, j);
      }
      UsesAfterFinish(t, t', k);
    }
  }

  lemma ReleaseShape(s: Sys, k: nat)
    requires k < |s.reqs| && s.reqs[k].status != Finished
    ensures var s' := Release(s, k);
      && |s'.reqs| == |s.reqs| && s'.reqs[k].residency == NoKv && s'.reqs[k].status == Finished
      && forall j :: 0 <= j < |s.reqs| && j != k ==> s'.reqs[j] == s.reqs[j]
  {
    hide DecrefAll, Without;
  }

  lemma ForgetShape(h: HostConfig, b: Books, k: nat)
    requires Ordered(b.snaps)
    ensures var b' := Forget(h, b, k);
      && Ordered(b'.snaps) && (forall x :: x in b'.snaps <==> x in b.snaps && x.owner != k)
      && Stored(h, b'.snaps) <= Stored(h, b.snaps)
      && b'.uses == DropUse(b, k).uses
  {
    hide Bytes, DropUse;
    DropUseSnaps(b, k);
    FindMeaning(b.snaps, k);
    if Find(b.snaps, k).Some? {
      var snap := Find(b.snaps, k).value;
      WithoutKeepsOrder(b.snaps, snap);
      StoredWithout(h, b.snaps, snap);
      forall x | x in b.snaps && x != snap
        ensures x.owner != k
      {
        OwnersDiffer(b.snaps, x, snap);
      }
    }
  }

  lemma DropUseSnaps(b: Books, k: nat)
    ensures DropUse(b, k).snaps == b.snaps
  {
  }

  lemma FindElsewhere(snaps: seq<Snap>, snaps': seq<Snap>, k: nat)
    requires Find(snaps, k).Some? && forall x :: x in snaps && x.owner == k ==> x in snaps'
    ensures Find(snaps', k).Some?
  {
    FindMeaning(snaps, k);
    FindMeaning(snaps', k);
  }

  lemma UsesAfterFinish(t: Tiered, t': Tiered, k: nat)
    requires UsesGood(t) && t'.books.uses == DropUse(t.books, k).uses && |t'.s.reqs| == |t.s.reqs|
    requires forall j :: 0 <= j < |t.s.reqs| && j != k ==> t'.s.reqs[j] == t.s.reqs[j]
    ensures UsesGood(t')
  {
    hide Without;
    FindUseMeaning(t.books.uses, k);
    NoUseFor(t.books.uses, k);
    if FindUse(t.books.uses, k).Some? {
      WithoutUse(t.books.uses, FindUse(t.books.uses, k).value);
    }
  }

  lemma {:induction false} FinishAllInv(net: Net, h: HostConfig, t: Tiered, ids: seq<nat>)
    requires TierInv(net, h, t)
    ensures TierInv(net, h, FinishAll(h, t, ids)) && FinishAll(h, t, ids).nextId == t.nextId
    ensures forall x :: x in FinishAll(h, t, ids).books.snaps ==> x in t.books.snaps
    decreases |ids|
  {
    hide TierInv, FinishTiered;
    if ids != [] {
      FinishTieredInv(net, h, t, ids[0]);
      FinishAllInv(net, h, FinishTiered(h, t, ids[0]), ids[1..]);
    }
  }

  /** After every reset nothing is on the host, and all its bytes are accounted for. */
  lemma ForgetAllInv(net: Net, net': Net, h: HostConfig, t: Tiered, t': Tiered)
    requires TierInv(net, h, t) && SysInv(net', t'.s) && t'.books == ForgetAll(h, t.books) && t'.nextId == t.nextId
    requires forall k :: 0 <= k < |t'.s.reqs| ==> t'.s.reqs[k].residency == NoKv
    ensures TierInv(net', h, t')
  {
    hide SysInv;
  }

  lemma ResetResidency(s: Sys, contents: Memory)
    ensures forall k :: 0 <= k < |s.reqs| ==> InvalidateAll(s).reqs[k].residency == NoKv
    ensures forall k :: 0 <= k < |s.reqs| ==> Recontent(ParkAll(InvalidateAll(s)), contents).reqs[k].residency == NoKv
    ensures |InvalidateAll(s).reqs| == |s.reqs| == |Recontent(ParkAll(InvalidateAll(s)), contents).reqs|
  {
    hide ResetPool;
  }

  /** Every operation keeps: the engine's invariant, a good snapshot for every session parked
      on the host, the byte balance, and the host budget. */
  lemma TierApplyInv(net: Net, cfg: Config, h: HostConfig, t: Tiered, op: TierOp)
    requires TierInv(net, h, t) && (op.TInvalidate? ==> SafeToInvalidate(t.s))
    ensures var (net', t', event) := TierApply(net, cfg, h, t, op); TierInv(net', h, t') && event != Corrupt
  {
    hide TierInv, SysInv, StepTiered, ResumeTiered, Save, EarlySave, EvictOldest, ReclaimGroup, GroupOutcome, Kept, NewSnaps, FinishTiered, FinishAll, InvalidateAll, Recontent, ParkAll, ForgetAll, SafeToInvalidate, HostOp, OnHost;
    TierSys(net, h, t);
    SysSize(net, t.s);
    match op
    case TAdd(tokens, q) => AddTieredInv(net, h, t, tokens, q); HostOpEvent(t.s, Add(tokens, q));
    case TStep(propose) => StepTieredInv(net, cfg, h, propose, t);
    case TResume(k, suffix, q, copyFails) => ResumeTieredInv(net, h, t, k, suffix, q, copyFails); ResumeEvent(h, t, k, suffix, q, copyFails);
    case TSave(k, copyFails) => SaveInv(net, h, t, k, copyFails);
    case TEarly(k, copyFails) => EarlySaveInv(net, h, t, k, copyFails);
    case TEvict => if t.books.snaps != [] { EvictOldestInv(net, h, t); }
    case TReclaim(group, minFree, fails) => ReclaimGroupInv(net, h, t, group, minFree, fails);
    case TFinish(k) => FinishTieredInv(net, h, t, k);
    case TAbort => FinishAllInv(net, h, t, t.s.waiting + t.s.running + OnHost(t.s.reqs));
    case TRestart(net', contents, change) =>
      RestartInv(net, net', t.s, contents);
      ResetResidency(t.s, contents);
      ForgetAllInv(net, net', h, t, TierApply(net, cfg, h, t, op).1);
    case TInvalidate(net', change) =>
      InvalidateExact(net, net', t.s);
      ResetResidency(t.s, []);
      ForgetAllInv(net, net', h, t, TierApply(net, cfg, h, t, op).1);
  }

  lemma SysSize(net: Net, s: Sys)
    requires SysInv(net, s)
    ensures s.pool.bs >= 1
  {
    hide KvInv, AllShaped, Queues;
    KvShape(net, s);
  }

  lemma ResumeEvent(h: HostConfig, t: Tiered, k: nat, suffix: seq<Token>, q: Params, copyFails: bool)
    requires t.s.pool.bs >= 1
    ensures ResumeTiered(h, t, k, suffix, q, copyFails).1 != Corrupt
  {
    hide Resume, RestoreSnap, Forget, AddUse, Find, DecrefAll;
  }

  // ----- whole runs -----

  ghost function TierRun(net: Net, cfg: Config, h: HostConfig, t: Tiered, ops: seq<TierOp>): (Net, Tiered, seq<Event>)
    decreases |ops|
  {
    if ops == [] then (net, t, [])
    else
      var (net1, t1, e) := TierApply(net, cfg, h, t, ops[0]);
      var (net2, t2, more) := TierRun(net1, cfg, h, t1, ops[1..]);
      (net2, t2, [e] + more)
  }

  ghost predicate CarefulTiered(net: Net, cfg: Config, h: HostConfig, t: Tiered, ops: seq<TierOp>)
    decreases |ops|
  {
    ops == [] || ((ops[0].TInvalidate? ==> SafeToInvalidate(t.s))
                  && var (net1, t1, _) := TierApply(net, cfg, h, t, ops[0]); CarefulTiered(net1, cfg, h, t1, ops[1..]))
  }

  lemma {:induction false} TierRunInv(net: Net, cfg: Config, h: HostConfig, t: Tiered, ops: seq<TierOp>)
    requires TierInv(net, h, t) && CarefulTiered(net, cfg, h, t, ops)
    ensures var (net', t', events) := TierRun(net, cfg, h, t, ops); TierInv(net', h, t') && Corrupt !in events
    decreases |ops|
  {
    hide TierInv, TierApply, SafeToInvalidate;
    if ops != [] {
      TierApplyInv(net, cfg, h, t, ops[0]);
      var (net1, t1, e) := TierApply(net, cfg, h, t, ops[0]);
      TierRunInv(net1, cfg, h, t1, ops[1..]);
    }
  }

  /** In every reachable state: committed bytes are used, wasted, stored or pending; what is
      stored fits the budget; and a session that says it is on the host is. */
  lemma TierMeaning(net: Net, h: HostConfig, t: Tiered, k: nat)
    requires TierInv(net, h, t) && k < |t.s.reqs|
    ensures t.books.written == t.books.used + t.books.unused + Stored(h, t.books.snaps) + Awaited(t.books.uses)
    ensures Stored(h, t.books.snaps) <= h.maxBytes
    ensures t.s.reqs[k].residency == OnCpu <==> Find(t.books.snaps, k).Some?
    ensures t.s.reqs[k].residency == OnCpu ==>
      var snap := Find(t.books.snaps, k).value;
      snap.tokens == t.s.reqs[k].tokens && Holds(net, snap.buffer, Identity(|snap.buffer|), t.s.reqs[k].tokens, snap.valid)
  {
    hide SysInv, Stored, Holds, BlocksNeededFor;
    FindMeaning(t.books.snaps, k);
  }

  // ----- the round trip -----

  /** Snapshots are immutable, and ids are never reused. */
  ghost predicate OnlyNewer(t: Tiered, t': Tiered) {
    t'.nextId >= t.nextId && forall x :: x in t'.books.snaps ==> x in t.books.snaps || x.id >= t.nextId
  }

  lemma SaveOnlyAdds(net: Net, h: HostConfig, t: Tiered, k: nat, copyFails: bool)
    requires TierInv(net, h, t) && t.s.pool.bs >= 1
    ensures OnlyNewer(t, Save(h, t, k, copyFails).0)
  {
    hide SysInv, Stored, Balanced, SnapsGood, UsesGood, MakeRoom, DecrefAll, Exported, BlocksNeededFor, Find;
    if k < |t.s.reqs| {
      var t1 := t.(nextId := t.nextId + 1);
      NextIdInv(net, h, t);
      var bytes := BlockBytes(h, BlocksNeededFor(t.s.reqs[k].computed, t.s.pool.bs));
      if bytes <= h.maxBytes {
        MakeRoomInv(net, h, t1, bytes);
      }
    }
  }

  lemma ResumeOnlyDrops(net: Net, h: HostConfig, t: Tiered, k: nat, suffix: seq<Token>, q: Params, copyFails: bool)
    requires TierInv(net, h, t) && t.s.pool.bs >= 1
    ensures OnlyNewer(t, ResumeTiered(h, t, k, suffix, q, copyFails).0)
  {
    hide SysInv, Stored, Balanced, SnapsGood, UsesGood, Resume, RestoreSnap, DecrefAll, Bytes;
    TierOrdered(net, h, t);
    ForgetShape(h, t.books, k);
    FindMeaning(t.books.snaps, k);
    if Find(t.books.snaps, k).Some? {
      WithoutKeepsOrder(t.books.snaps, Find(t.books.snaps, k).value);
    }
  }

  lemma ApplyOnlyNewer(net: Net, cfg: Config, h: HostConfig, t: Tiered, op: TierOp)
    requires TierInv(net, h, t) && (op.TInvalidate? ==> SafeToInvalidate(t.s))
    ensures OnlyNewer(t, TierApply(net, cfg, h, t, op).1)
  {
    hide TierInv, ResumeTiered, Save, EarlySave, ReclaimGroup, GroupOutcome, FinishTiered, FinishAll, InvalidateAll, Recontent, ParkAll, SafeToInvalidate, HostOp, OnHost, ScheduleLoop, PagedBatch;
    TierSys(net, h, t);
    SysSize(net, t.s);
    match op
    case TStep(propose) =>
      TierBalanced(net, h, t);
      var outcome := Schedule(cfg, propose, t.s);
      if outcome.Scheduled? {
        MarkAllKeeps(h, t.books, outcome.s.reqs, NormalIds(outcome.s, outcome.ids));
      }
    case TResume(k, suffix, q, copyFails) => ResumeOnlyDrops(net, h, t, k, suffix, q, copyFails);
    case TSave(k, copyFails) => SaveOnlyAdds(net, h, t, k, copyFails);
    case TEarly(k, copyFails) => EarlySaveFrame(h, t, k, copyFails);
    case TEvict =>
      TierOrdered(net, h, t);
      if t.books.snaps != [] {
        WithoutKeepsOrder(t.books.snaps, t.books.snaps[0]);
      }
    case TReclaim(group, minFree, fails) => ReclaimGroupInv(net, h, t, group, minFree, fails);
    case TFinish(k) => FinishTieredInv(net, h, t, k);
    case TAbort => FinishAllInv(net, h, t, t.s.waiting + t.s.running + OnHost(t.s.reqs));
    case _ =>
  }

  lemma TierBalanced(net: Net, h: HostConfig, t: Tiered)
    requires TierInv(net, h, t)
    ensures Balanced(h, t.books)
  {
    hide SysInv, Balanced, SnapsGood, UsesGood, Stored;
  }

  lemma {:induction false} RunOnlyNewer(net: Net, cfg: Config, h: HostConfig, t: Tiered, ops: seq<TierOp>)
    requires TierInv(net, h, t) && CarefulTiered(net, cfg, h, t, ops)
    ensures OnlyNewer(t, TierRun(net, cfg, h, t, ops).1)
    decreases |ops|
  {
    hide TierInv, TierApply, SafeToInvalidate;
    if ops != [] {
      TierApplyInv(net, cfg, h, t, ops[0]);
      ApplyOnlyNewer(net, cfg, h, t, ops[0]);
      var (net1, t1, e) := TierApply(net, cfg, h, t, ops[0]);
      RunOnlyNewer(net1, cfg, h, t1, ops[1..]);
    }
  }

  // ----- no snapshot is ever stale -----

  lemma {:induction false} IncrefAllFrame(p: Pool, blocks: seq<nat>)
    ensures SameFrame(p, IncrefAll(p, blocks))
    decreases |blocks|
  {
    if blocks != [] {
      IncrefAllFrame(p, blocks[..|blocks| - 1]);
    }
  }

  lemma RebuildFrame(p: Pool, hits: seq<Option<nat>>, needed: nat, copyFails: bool)
    requires |Pins(hits)| <= |hits|
    ensures SameFrame(p, RebuildTable(p, hits, needed, copyFails).pool)
  {
    hide IncrefAll, EvictUnused, Grow, DecrefAll, Weave;
    var pins := Pins(hits);
    IncrefAllFrame(p, pins);
    var p1 := IncrefAll(p, pins);
    EvictFrame(p1, needed - |p1.free|);
    var p2 := EvictUnused(p1, needed - |p1.free|);
    DecrefAllFrame(p2, pins);
    GrowFrame(p2, [], |hits| - |pins|);
    var (p3, added) := Grow(p2, [], |hits| - |pins|);
    DecrefAllFrame(p3, pins + added);
  }

  lemma MixedFrame(t: Tiered, k: nat, snap: Snap, copyFails: bool)
    requires k < |t.s.reqs| && t.s.pool.bs >= 1
    ensures SameFrame(t.s.pool, RestoreMixed(t, k, snap, copyFails).0.pool)
    ensures |RestoreMixed(t, k, snap, copyFails).0.reqs| == |t.s.reqs|
  {
    hide DeviceHits, RebuildTable, Imported, Pins;
    var hits := DeviceHits(t.s.pool, t.s.reqs[k].tokens, snap.valid, |snap.buffer|);
    PinsCount(hits);
    RebuildFrame(t.s.pool, hits, |hits| - |Pins(hits)| + if snap.valid % t.s.pool.bs == 0 then 1 else 0, copyFails);
  }

  lemma PlainFrame(p: Pool, tokens: seq<Token>, valid: nat, blocks: nat, copyFails: bool)
    requires p.bs >= 1
    ensures SameFrame(p, PlainTable(p, tokens, valid, blocks, copyFails).pool)
  {
    hide AttachLoop, EvictUnused, Grow, DecrefAll;
    AttachFrame(p, tokens, 0, valid / p.bs, [], Root);
    var (p1, n, table, parent) := AttachUpto(p, tokens, valid);
    var needed := (if blocks >= |table| then blocks - |table| else 0) + if valid % p.bs == 0 then 1 else 0;
    EvictFrame(p1, needed - |p1.free|);
    var p2 := EvictUnused(p1, needed - |p1.free|);
    DecrefAllFrame(p2, table);
    GrowFrame(p2, table, blocks);
    var (p3, table') := Grow(p2, table, blocks);
    DecrefAllFrame(p3, table');
  }

  lemma RestoreFrame(h: HostConfig, t: Tiered, k: nat, snap: Snap, copyFails: bool)
    requires k < |t.s.reqs| && t.s.pool.bs >= 1
    ensures SameFrame(t.s.pool, RestoreSnap(h, t, k, snap, copyFails).0.pool)
    ensures |RestoreSnap(h, t, k, snap, copyFails).0.reqs| == |t.s.reqs|
  {
    hide RestoreMixed, PlainTable, Imported;
    MixedFrame(t, k, snap, copyFails);
    PlainFrame(t.s.pool, snap.tokens, snap.valid, |snap.buffer|, copyFails);
  }

  /** Between resets, the marks that a snapshot is compared with do not move. */
  ghost predicate SameMarks(t: Tiered, t': Tiered) {
    SameFrame(t.s.pool, t'.s.pool) && t'.weights == t.weights
  }

  lemma ResumeMarks(h: HostConfig, t: Tiered, k: nat, suffix: seq<Token>, q: Params, copyFails: bool)
    requires t.s.pool.bs >= 1
    ensures SameMarks(t, ResumeTiered(h, t, k, suffix, q, copyFails).0)
  {
    hide RestoreSnap, Forget, AddUse, Find, DecrefAll, BlocksNeededFor;
    if k < |t.s.reqs| && Find(t.books.snaps, k).Some? {
      var snap := Find(t.books.snaps, k).value;
      RestoreFrame(h, t, k, snap, copyFails);
      var s1 := RestoreSnap(h, t, k, snap, copyFails).0;
      DecrefAllFrame(s1.pool, s1.reqs[k].table);
    }
  }

  lemma {:induction false} MakeRoomMarks(h: HostConfig, t: Tiered, bytes: nat)
    ensures var t' := MakeRoom(h, t, bytes); t'.s.pool == t.s.pool && t'.weights == t.weights && |t'.s.reqs| == |t.s.reqs|
    decreases |t.books.snaps|
  {
    hide Stored, DropSnap;
    if t.books.snaps != [] && Stored(h, t.books.snaps) + bytes > h.maxBytes {
      DropSnapShrinks(h, t.books);
      EvictOldestBooks(h, t);
      MakeRoomMarks(h, EvictOldest(h, t), bytes);
    }
  }

  lemma EarlyMarks(h: HostConfig, t: Tiered, k: nat, copyFails: bool)
    requires t.s.pool.bs >= 1
    ensures SameMarks(t, EarlySave(h, t, k, copyFails).0)
  {
    hide DecrefAll, Exported, BlocksNeededFor, Find, AddSnap, Stored;
    if k < |t.s.reqs| {
      DecrefAllFrame(t.s.pool, t.s.reqs[k].table);
    }
  }

  lemma SaveMarks(h: HostConfig, t: Tiered, k: nat, copyFails: bool)
    requires t.s.pool.bs >= 1
    ensures SameMarks(t, Save(h, t, k, copyFails).0)
  {
    hide MakeRoom, DecrefAll, Exported, BlocksNeededFor, Find, AddSnap;
    if k < |t.s.reqs| {
      var r := t.s.reqs[k];
      MakeRoomMarks(h, t.(nextId := t.nextId + 1), BlockBytes(h, BlocksNeededFor(r.computed, t.s.pool.bs)));
      DecrefAllFrame(t.s.pool, r.table);
    }
  }

  lemma SaveHeldMarks(h: HostConfig, g: Group, k: nat, hold: Hold, copyFails: bool)
    requires g.t.s.pool.bs >= 1
    ensures SameMarks(g.t, SaveHeld(h, g, k, hold, copyFails).t)
  {
    hide DecrefAll, Exported, BlocksNeededFor, Find, AddSnap, InPool;
    if k < |g.t.s.reqs| {
      DecrefAllFrame(g.t.s.pool, g.t.s.reqs[k].table);
    }
  }

  lemma {:induction false} MembersMarks(h: HostConfig, g: Group, group: seq<nat>, holds: seq<Hold>, minFree: nat, fails: set<nat>)
    requires g.t.s.pool.bs >= 1
    ensures SameMarks(g.t, SaveMembers(h, g, group, holds, minFree, fails).t)
    decreases |group|
  {
    hide SaveHeld, EvictUnused;
    if group != [] && holds != [] {
      SaveHeldMarks(h, g, group[0], holds[0], group[0] in fails);
      var g1 := SaveHeld(h, g, group[0], holds[0], group[0] in fails);
      EvictFrame(g1.t.s.pool, minFree - |g1.t.s.pool.free|);
      MembersMarks(h, g1.(t := ReclaimCached(g1.t, minFree)), group[1..], holds[1..], minFree, fails);
    }
  }

  lemma GroupMarks(h: HostConfig, t: Tiered, group: seq<nat>, minFree: nat, fails: set<nat>)
    requires t.s.pool.bs >= 1
    ensures SameMarks(t, ReclaimGroup(h, t, group, minFree, fails).t)
  {
    hide Described, MakeRoom, SaveMembers;
    var (next, holds) := Described(h, t, group, t.nextId);
    if holds.Some? {
      MakeRoomMarks(h, t.(nextId := if next >= t.nextId then next else t.nextId), Total(holds.value));
      var (t1, prepared) := Prepare(h, t, group);
      MembersMarks(h, Group(t1, Total(holds.value), [], false), group, holds.value, minFree, fails);
    }
  }

  lemma {:induction false} FinishAllMarks(h: HostConfig, t: Tiered, ids: seq<nat>)
    ensures SameMarks(t, FinishAll(h, t, ids))
    decreases |ids|
  {
    hide DecrefAll, Without, Forget;
    if ids != [] {
      if ids[0] < |t.s.reqs| {
        DecrefAllFrame(t.s.pool, t.s.reqs[ids[0]].table);
      }
      FinishAllMarks(h, FinishTiered(h, t, ids[0]), ids[1..]);
    }
  }

  lemma AddMarks(s: Sys, tokens: seq<Token>, q: Params)
    requires s.pool.bs >= 1
    ensures SameFrame(s.pool, HostOp(s, Add(tokens, q)).0.pool)
  {
    hide AttachLoop, BlocksNeededFor;
    AttachFrame(s.pool, tokens, 0, if |tokens| == 0 then 0 else (|tokens| - 1) / s.pool.bs, [], Root);
  }

  predicate Resets(op: TierOp) {
    op.TRestart? || op.TInvalidate?
  }

  lemma ApplyMarks(net: Net, cfg: Config, h: HostConfig, t: Tiered, op: TierOp)
    ensures var t' := TierApply(net, cfg, h, t, op).1;
      if Resets(op) && t.s.pool.bs >= 1 then t'.books.snaps == [] && t'.s.pool.bs == t.s.pool.bs else SameMarks(t, t')
  {
    hide ResumeTiered, Save, EarlySave, ReclaimGroup, FinishAll, HostOp, OnHost, ScheduleLoop, PagedBatch, MarkAll, DropSnap, Release, Forget, DecrefAll;
    if t.s.pool.bs >= 1 {
      match op
      case TAdd(tokens, q) => AddMarks(t.s, tokens, q);
      case TStep(propose) =>
        StepFrame(net, cfg, propose, t.s);
      case TResume(k, suffix, q, copyFails) => ResumeMarks(h, t, k, suffix, q, copyFails);
      case TSave(k, copyFails) => SaveMarks(h, t, k, copyFails);
      case TEarly(k, copyFails) => EarlyMarks(h, t, k, copyFails);
      case TReclaim(group, minFree, fails) => GroupMarks(h, t, group, minFree, fails);
      case TFinish(k) =>
        FinishAllMarks(h, t, [k]);
        FinishOne(h, t, k);
      case TAbort => FinishAllMarks(h, t, t.s.waiting + t.s.running + OnHost(t.s.reqs));
      case _ =>
    }
  }

  lemma FinishOne(h: HostConfig, t: Tiered, k: nat)
    ensures FinishAll(h, t, [k]) == FinishTiered(h, t, k)
  {
    hide FinishTiered;
    assert [k][1..] == [];
    assert FinishAll(h, FinishTiered(h, t, k), []) == FinishTiered(h, t, k);
  }

  /** Every registered snapshot carries the engine's present weights, epoch and block size. */
  ghost predicate Current(t: Tiered) {
    forall x :: x in t.books.snaps ==> x.weights == t.weights && x.epoch == t.s.pool.epoch && x.bs == t.s.pool.bs
  }

  /** What an operation may register is a save under the marks of that moment. */
  lemma ApplyCurrent(net: Net, cfg: Config, h: HostConfig, t: Tiered, op: TierOp)
    requires TierInv(net, h, t) && Current(t) && (op.TInvalidate? ==> SafeToInvalidate(t.s))
    ensures Current(TierApply(net, cfg, h, t, op).1)
  {
    hide TierInv, TierApply, SameMarks, SafeToInvalidate;
    TierSys(net, h, t);
    SysSize(net, t.s);
    var t' := TierApply(net, cfg, h, t, op).1;
    ApplyMarks(net, cfg, h, t, op);
    ApplyOnlyNewer(net, cfg, h, t, op);
    if !Resets(op) {
      MarksAgree(t, t');
      forall x | x in t'.books.snaps
        ensures x.weights == t'.weights && x.epoch == t'.s.pool.epoch && x.bs == t'.s.pool.bs
      {
        if x !in t.books.snaps {
          ApplyNewSnap(net, cfg, h, t, op, x);
        }
      }
    }
  }

  lemma MarksAgree(t: Tiered, t': Tiered)
    requires SameMarks(t, t')
    ensures t'.weights == t.weights && t'.s.pool.epoch == t.s.pool.epoch && t'.s.pool.bs == t.s.pool.bs
  {
  }

  /** Only saves register snapshots, each under an id of its own. */
  lemma ApplyNewSnap(net: Net, cfg: Config, h: HostConfig, t: Tiered, op: TierOp, x: Snap)
    requires TierInv(net, h, t) && (op.TInvalidate? ==> SafeToInvalidate(t.s))
    requires x in TierApply(net, cfg, h, t, op).1.books.snaps && x !in t.books.snaps
    ensures op.TSave? || op.TEarly? || op.TReclaim?
    ensures x.id >= t.nextId && (op.TSave? || op.TEarly? ==> x.id == t.nextId && x.owner == op.id)
    ensures x.weights == t.weights && x.epoch == t.s.pool.epoch && x.bs == t.s.pool.bs
  {
    hide TierInv, ResumeTiered, FinishTiered, FinishAll, InvalidateAll, Recontent, ParkAll, SafeToInvalidate, HostOp, OnHost, ScheduleLoop, PagedBatch, Save, EarlySave, ReclaimGroup, GroupOutcome, Kept;
    TierSys(net, h, t);
    SysSize(net, t.s);
    match op
    case TStep(propose) =>
      TierBalanced(net, h, t);
      var outcome := Schedule(cfg, propose, t.s);
      if outcome.Scheduled? {
        MarkAllKeeps(h, t.books, outcome.s.reqs, NormalIds(outcome.s, outcome.ids));
      }
    case TResume(k, suffix, q, copyFails) => ResumeDrops(net, h, t, k, suffix, q, copyFails);
    case TSave(k, copyFails) => SaveNewSnap(net, h, t, k, copyFails, x);
    case TEarly(k, copyFails) => EarlySaveFrame(h, t, k, copyFails);
    case TEvict =>
      TierOrdered(net, h, t);
      if t.books.snaps != [] {
        WithoutKeepsOrder(t.books.snaps, t.books.snaps[0]);
      }
    case TReclaim(group, minFree, fails) => ReclaimGroupInv(net, h, t, group, minFree, fails);
    case TFinish(k) => FinishTieredInv(net, h, t, k);
    case TAbort => FinishAllInv(net, h, t, t.s.waiting + t.s.running + OnHost(t.s.reqs));
    case _ =>
  }

  lemma ResumeDrops(net: Net, h: HostConfig, t: Tiered, k: nat, suffix: seq<Token>, q: Params, copyFails: bool)
    requires TierInv(net, h, t) && t.s.pool.bs >= 1
    ensures forall x :: x in ResumeTiered(h, t, k, suffix, q, copyFails).0.books.snaps ==> x in t.books.snaps
  {
    hide SysInv, Stored, Balanced, SnapsGood, UsesGood, Resume, RestoreSnap, DecrefAll, Bytes;
    TierOrdered(net, h, t);
    ForgetShape(h, t.books, k);
    FindMeaning(t.books.snaps, k);
    if Find(t.books.snaps, k).Some? {
      WithoutKeepsOrder(t.books.snaps, Find(t.books.snaps, k).value);
    }
  }

  lemma SaveNewSnap(net: Net, h: HostConfig, t: Tiered, k: nat, copyFails: bool, x: Snap)
    requires TierInv(net, h, t) && t.s.pool.bs >= 1
    requires x in Save(h, t, k, copyFails).0.books.snaps && x !in t.books.snaps
    ensures x.id == t.nextId && x.owner == k && x.weights == t.weights && x.epoch == t.s.pool.epoch && x.bs == t.s.pool.bs
  {
    hide SysInv, Stored, Balanced, SnapsGood, UsesGood, MakeRoom, DecrefAll, Exported, BlocksNeededFor, Find;
    if k < |t.s.reqs| {
      var t1 := t.(nextId := t.nextId + 1);
      NextIdInv(net, h, t);
      var bytes := BlockBytes(h, BlocksNeededFor(t.s.reqs[k].computed, t.s.pool.bs));
      if bytes <= h.maxBytes {
        MakeRoomInv(net, h, t1, bytes);
      }
    }
  }

  lemma {:induction false} RunMarks(net: Net, cfg: Config, h: HostConfig, t: Tiered, ops: seq<TierOp>)
    requires TierInv(net, h, t) && Current(t) && CarefulTiered(net, cfg, h, t, ops)
    ensures var t' := TierRun(net, cfg, h, t, ops).1; Current(t') && t'.s.pool.bs == t.s.pool.bs
    decreases |ops|
  {
    hide TierInv, TierApply, SafeToInvalidate, Current;
    if ops != [] {
      TierApplyInv(net, cfg, h, t, ops[0]);
      ApplyCurrent(net, cfg, h, t, ops[0]);
      ApplyMarks(net, cfg, h, t, ops[0]);
      var (net1, t1, e) := TierApply(net, cfg, h, t, ops[0]);
      RunMarks(net1, cfg, h, t1, ops[1..]);
    }
  }

  /** The first `valid` entries that two tables gather agree. */
  ghost predicate SameGather(mem: Memory, table: seq<nat>, mem': Memory, table': seq<nat>, valid: nat) {
    && InPool(table, |mem|) && InPool(table', |mem'|)
    && valid <= |Flat(mem, table)| && valid <= |Flat(mem', table')|
    && Flat(mem', table')[..valid] == Flat(mem, table)[..valid]
  }

  lemma SavedSnap(net: Net, h: HostConfig, t: Tiered, k: nat)
    requires TierInv(net, h, t) && k < |t.s.reqs| && t.s.reqs[k].residency != OnCpu && t.s.pool.bs >= 1
    requires Save(h, t, k, false).1 == Saved
    ensures var r, t1 := t.s.reqs[k], Save(h, t, k, false).0;
      exists snap :: snap in t1.books.snaps && snap.id == t.nextId && snap.valid == r.computed && SameAsSaved(t.s.mem, r.table, snap)
  {
    hide SysInv, MakeRoom, Stored, Balanced, SnapsGood, UsesGood, DecrefAll, Exported, Local, Rest, BlocksNeededFor, Holds, Find, SameAsSaved;
    var r := t.s.reqs[k];
    TierSys(net, h, t);
    KvOf(net, t.s);
    At(net, t.s, k);
    SavedContents(net, t.s.pool, t.s.mem, Rest(t.s.reqs, k), r);
    LocalHolds(net, t.s.pool, t.s.mem, Rest(t.s.reqs, k), r);
    var blocks := BlocksNeededFor(r.computed, t.s.pool.bs);
    var snap := Snap(k, t.nextId, r.tokens, r.computed, t.s.pool.bs, t.weights, t.s.pool.epoch,
                     Exported(t.s.mem, r.table[..blocks], t.s.pool.bs, r.computed));
    HoldsIsSame(net, t.s.mem, r.table, snap);
    var t1 := Save(h, t, k, false).0;
    assert t1.books.snaps[|t1.books.snaps| - 1] == snap;
    assert snap in t1.books.snaps;
  }

  lemma SameThroughSnap(mem: Memory, table: seq<nat>, mem': Memory, table': seq<nat>, snap: Snap)
    requires SameAsSaved(mem, table, snap) && SameAsSaved(mem', table', snap)
    ensures SameGather(mem, table, mem', table', snap.valid)
  {
    hide Flat;
  }

  /** `begin_restore` takes the snapshot: nothing about it is stale. */
  ghost predicate Restorable(t: Tiered, k: nat, snap: Snap) {
    && k < |t.s.reqs| && t.s.pool.bs >= 1 && snap.owner == k
    && snap.weights == t.weights && snap.epoch == t.s.pool.epoch && snap.bs == t.s.pool.bs
    && Parked(t.s.reqs[k], snap)
  }

  /** Save, then anything at all, then restore: as long as the snapshot is still registered it
      is accepted, the restore succeeds exactly when no copy fails and there is room, and the
      rebuilt table gathers exactly the entries the old one gathered, for
      every position that had been computed.  In between the freed blocks may have been reused,
      the prefix cache evicted, and other sessions saved, restored or dropped. */
  lemma RoundTrip(net: Net, cfg: Config, h: HostConfig, t: Tiered, k: nat, ops: seq<TierOp>, copyFails: bool)
    requires TierInv(net, h, t) && Current(t) && k < |t.s.reqs| && t.s.reqs[k].residency != OnCpu && t.s.pool.bs >= 1
    requires Save(h, t, k, false).1 == Saved
    requires CarefulTiered(net, cfg, h, Save(h, t, k, false).0, ops)
    ensures var t2 := TierRun(net, cfg, h, Save(h, t, k, false).0, ops).1; var found := Find(t2.books.snaps, k);
      found.Some? && found.value.id == t.nextId ==>
        && Restorable(t2, k, found.value)
        && var (s3, ok, _) := RestoreSnap(h, t2, k, found.value, copyFails);
          && |s3.reqs| == |t2.s.reqs| && (ok <==> !copyFails && RoomToRestore(h, t2.s.pool, found.value))
          && (ok ==> s3.reqs[k].computed == t.s.reqs[k].computed
                     && SameGather(t.s.mem, t.s.reqs[k].table, s3.mem, s3.reqs[k].table, t.s.reqs[k].computed))
  {
    hide TierInv, Save, RestoreSnap, TierRun, CarefulTiered, SameAsSaved, SameGather, SnapGood, RolledBack, Rest, Current, TierApply, RoomToRestore;
    var t1 := Save(h, t, k, false).0;
    SaveInv(net, h, t, k, false);
    SavedSnap(net, h, t, k);
    var snap :| snap in t1.books.snaps && snap.id == t.nextId && snap.valid == t.s.reqs[k].computed && SameAsSaved(t.s.mem, t.s.reqs[k].table, snap);
    SavedNext(h, t, k);
    SaveApplies(net, cfg, h, t, k);
    ApplyCurrent(net, cfg, h, t, TSave(k, false));
    TierRunInv(net, cfg, h, t1, ops);
    RunOnlyNewer(net, cfg, h, t1, ops);
    RunMarks(net, cfg, h, t1, ops);
    var (net2, t2, _) := TierRun(net, cfg, h, t1, ops);
    var found := Find(t2.books.snaps, k);
    if found.Some? && found.value.id == t.nextId {
      FindMeaning(t2.books.snaps, k);
      TierOrdered(net, h, t1);
      SameId(t1.books.snaps, found.value, snap);
      TierGood(net2, h, t2, snap);
      CurrentSnap(net2, h, t2, snap);
      RestoreSnapInv(net2, h, t2, k, snap, copyFails);
      var (s3, ok, _) := RestoreSnap(h, t2, k, snap, copyFails);
      if ok {
        SameThroughSnap(t.s.mem, t.s.reqs[k].table, s3.mem, s3.reqs[k].table, snap);
      }
    }
  }

  lemma SaveApplies(net: Net, cfg: Config, h: HostConfig, t: Tiered, k: nat)
    requires t.s.pool.bs >= 1
    ensures TierApply(net, cfg, h, t, TSave(k, false)).1 == Save(h, t, k, false).0
  {
    hide Save;
  }

  lemma CurrentSnap(net: Net, h: HostConfig, t: Tiered, snap: Snap)
    requires TierInv(net, h, t) && Current(t) && snap in t.books.snaps
    ensures Restorable(t, snap.owner, snap)
  {
    hide SysInv, SnapGood, Find, Stored, Parked;
    SysSize(net, t.s);
    SnapOwner(net, t, snap);
  }

  lemma SavedNext(h: HostConfig, t: Tiered, k: nat)
    requires k < |t.s.reqs| && t.s.reqs[k].residency != OnCpu && t.s.pool.bs >= 1 && Save(h, t, k, false).1 == Saved
    ensures Save(h, t, k, false).0.nextId == MakeRoom(h, t.(nextId := t.nextId + 1), BlockBytes(h, BlocksNeededFor(t.s.reqs[k].computed, t.s.pool.bs))).nextId
    ensures Save(h, t, k, false).0.nextId > t.nextId
  {
    hide DecrefAll, Exported, BlocksNeededFor, Find, Stored;
    MakeRoomNext(h, t.(nextId := t.nextId + 1), BlockBytes(h, BlocksNeededFor(t.s.reqs[k].computed, t.s.pool.bs)));
  }

  lemma {:induction false} MakeRoomNext(h: HostConfig, t: Tiered, bytes: nat)
    ensures MakeRoom(h, t, bytes).nextId == t.nextId
    decreases |t.books.snaps|
  {
    hide Stored, DropSnap;
    if t.books.snaps != [] && Stored(h, t.books.snaps) + bytes > h.maxBytes {
      DropSnapShrinks(h, t.books);
      EvictOldestBooks(h, t);
      MakeRoomNext(h, EvictOldest(h, t), bytes);
    }
  }

  lemma SameId(snaps: seq<Snap>, a: Snap, b: Snap)
    requires Ordered(snaps) && a in snaps && b in snaps && a.id == b.id
    ensures a == b
  {
    if a != b {
      OwnersDiffer(snaps, a, b);
    }
  }

  lemma TierGood(net: Net, h: HostConfig, t: Tiered, snap: Snap)
    requires TierInv(net, h, t) && snap in t.books.snaps
    ensures SnapGood(net, t, snap)
  {
    hide SysInv, Stored, SnapGood, Find;
  }

  /** A new engine with empty host memory. */
  lemma BootTier(net: Net, h: HostConfig, bs: nat, blocks: nat, caching: bool, contents: Memory)
    requires bs >= 1 && |contents| == blocks && MemoryShape(contents, bs)
    ensures var t := Tiered(Boot(bs, blocks, caching, contents), Books([], [], 0, 0, 0), 0, 0);
      TierInv(net, h, t) && Current(t)
  {
    hide SysInv;
    BootInv(net, bs, blocks, caching, contents);
  }
}

/** A save whose copy runs beside the engine: chunks are read between arbitrary operations, and
    a copy that commits holds exactly the paused request's KV. */
module AsyncOffload {
  import opened Kv
  import opened BlockPool
  import opened Requests
  import opened Ownership
  import opened OwnershipSteps
  import opened System
  import opened SystemInv
  import opened ScheduleInv
  import opened Engine
  import opened Geometry
  import opened Runs
  import opened Steady
  import opened Transfer
  import opened Restore
  import opened PlainRestore
  import opened Offload
  import opened Groups
  import opened OffloadRuns

  /** The one save in flight: what it is for, and the blocks read so far. */
  datatype Copy = Copy(owner: nat, id: nat, table: seq<nat>, tokens: seq<Token>, valid: nat, bs: nat, blocks: nat,
                       weights: nat, epoch: nat, read: Memory)

  datatype Async = Async(t: Tiered, pending: Option<Copy>)

  /** How an enqueued save gets going: a copy in flight, a plain save where no copy can be in
      flight, or a copy that cannot be set up or started, of which nothing remains. */
  datatype Launch = InFlight | Inline(copyFails: bool) | LaunchFails

  datatype AsyncOp =
    | Enqueue(id: nat, launch: Launch)
    | ReadChunk(blocks: nat)
    | Poll
    | Do(op: TierOp)

  /** `enqueue_save`: one at a time, and never at the price of another snapshot. */
  ghost function EnqueueSave(h: HostConfig, a: Async, k: nat, launch: Launch): Async
    requires a.t.s.pool.bs >= 1
  {
    if a.pending.Some? || k >= |a.t.s.reqs| then a
    else
      var r := a.t.s.reqs[k];
      var blocks := BlocksNeededFor(r.computed, a.t.s.pool.bs);
      if r.status != Paused || r.table == [] || blocks > |r.table| || r.computed > |r.tokens| then a
      else if Stored(h, a.t.books.snaps) + BlockBytes(h, blocks) > h.maxBytes then a.(t := a.t.(nextId := a.t.nextId + 1))
      else if launch.LaunchFails? then a.(t := a.t.(nextId := a.t.nextId + 1))
      else if launch.Inline? then a.(t := EarlySave(h, a.t, k, launch.copyFails).0)
      else
        Async(a.t.(nextId := a.t.nextId + 1),
              Some(Copy(k, a.t.nextId, r.table, r.tokens, r.computed, a.t.s.pool.bs, blocks, a.t.weights, a.t.s.pool.epoch, [])))
  }

  /** The copy stream reads the next blocks of the source table, as they are now. */
  function ReadBlocks(mem: Memory, c: Copy, n: nat): Copy
    decreases n
  {
    if n == 0 || |c.read| >= c.blocks || |c.read| >= |c.table| then c
    else
      var b := c.table[|c.read|];
      ReadBlocks(mem, c.(read := c.read + [if b < |mem| then mem[b] else []]), n - 1)
  }

  /** The copied buffer with the tail of its last block zeroed. */
  function Buffered(c: Copy): Memory
    requires c.bs >= 1
  {
    if c.valid % c.bs != 0 && c.read != [] then
      c.read[|c.read| - 1 := Padded(c.read[|c.read| - 1], c.valid % c.bs)]
    else c.read
  }

  /** The request is as it was when the copy began. */
  predicate Waits(r: Req, c: Copy) {
    r.status == Paused && r.table == c.table && r.tokens == c.tokens && r.computed == c.valid
  }

  /** `valid` in `poll`. */
  predicate StillValid(t: Tiered, c: Copy) {
    && c.owner < |t.s.reqs| && Waits(t.s.reqs[c.owner], c)
    && t.s.pool.epoch == c.epoch && t.weights == c.weights && c.bs >= 1
  }

  /** What a commit registers. */
  function Committed(c: Copy): Snap
    requires c.bs >= 1
  {
    Snap(c.owner, c.id, c.tokens, c.valid, c.bs, c.weights, c.epoch, Buffered(c))
  }

  function CommitCopy(h: HostConfig, t: Tiered, c: Copy): Tiered
    requires c.owner < |t.s.reqs| && c.bs >= 1
  {
    var r := t.s.reqs[c.owner];
    var r' := OffDevice(r, OnCpu, Some(c.id)).(epoch := c.epoch);
    t.(s := SetReq(t.s, c.owner, DecrefAll(t.s.pool, r.table), r'), books := AddSnap(h, t.books, Committed(c)))
  }

  /** `poll`: commits a complete copy that is still valid, drops any other complete copy. */
  function PollCopy(h: HostConfig, a: Async, wait: bool, cancel: bool): Async {
    if a.pending.None? then a
    else
      var c := if wait then ReadBlocks(a.t.s.mem, a.pending.value, a.pending.value.blocks) else a.pending.value;
      if |c.read| < c.blocks then a
      else if cancel || !StillValid(a.t, c) then a.(pending := None)
      else Async(CommitCopy(h, a.t, c), None)
  }

  predicate PendingFor(a: Async, k: nat) {
    a.pending.Some? && a.pending.value.owner == k
  }

  /** What an operation of the engine does about the copy first. */
  function Before(h: HostConfig, a: Async, op: TierOp): Async {
    match op
    case TResume(k, _, _, _) => if PendingFor(a, k) then PollCopy(h, a, true, false) else a
    case TSave(_, _) => PollCopy(h, a, true, false)
    case TReclaim(_, _, _) => PollCopy(h, a, true, false)
    case TFinish(k) => if PendingFor(a, k) then PollCopy(h, a, true, true) else a
    case TRestart(_, _, _) => PollCopy(h, a, true, true)
    case TInvalidate(_, _) => PollCopy(h, a, true, true)
    case _ => a
  }

  /** `abort_generation` also takes the request that is being copied. */
  function AbortTargets(reqs: seq<Req>, owner: nat): seq<nat> {
    if reqs == [] then []
    else
      var n := |reqs| - 1;
      AbortTargets(reqs[..n], owner) + (if reqs[n].status == Paused && (reqs[n].residency == OnCpu || n == owner) then [n] else [])
  }

  /** An early save here is an enqueued one. */
  ghost function AsyncApply(net: Net, cfg: Config, h: HostConfig, a: Async, op: AsyncOp): (Net, Async, Event) {
    match op
    case Enqueue(k, launch) => (net, if a.t.s.pool.bs == 0 then a else EnqueueSave(h, a, k, launch), Done)
    case ReadChunk(n) =>
      (net, if a.pending.None? then a else a.(pending := Some(ReadBlocks(a.t.s.mem, a.pending.value, n))), Done)
    case Poll => (net, PollCopy(h, a, false, false), Done)
    case Do(TEarly(k, _)) => (net, if a.t.s.pool.bs == 0 then a else EnqueueSave(h, a, k, InFlight), Done)
    case Do(top) =>
      if top.TAbort? && a.pending.Some? then
        (net, Async(FinishAll(h, a.t, a.t.s.waiting + a.t.s.running + AbortTargets(a.t.s.reqs, a.pending.value.owner)), None), Done)
      else
        var b := Before(h, a, top);
        var (net', t', e) := TierApply(net, cfg, h, b.t, top);
        (net', Async(t', b.pending), e)
  }

  // ----- the invariant -----

  /** The copy's request is untouched, everything read so far is right, and host room is kept
      for the rest. */
  ghost predicate CopyGood(net: Net, h: HostConfig, t: Tiered, c: Copy) {
    && c.owner < |t.s.reqs| && Waits(t.s.reqs[c.owner], c) && t.s.reqs[c.owner].residency != OnCpu
    && c.bs >= 1 && c.bs == t.s.pool.bs && c.epoch == t.s.pool.epoch && c.weights == t.weights
    && c.blocks == BlocksNeededFor(c.valid, c.bs) && |c.read| <= c.blocks <= |c.table| && c.valid <= |c.tokens|
    && AllRight(net, c)
    && c.id < t.nextId && (forall x :: x in t.books.snaps ==> x.id < c.id)
    && Stored(h, t.books.snaps) + BlockBytes(h, c.blocks) <= h.maxBytes
  }

  ghost predicate AllRight(net: Net, c: Copy) {
    forall i :: 0 <= i < |c.read| ==> Right(net, c.tokens, c.bs, c.valid, i, c.read[i])
  }

  ghost predicate AsyncInv(net: Net, h: HostConfig, a: Async) {
    TierInv(net, h, a.t) && Current(a.t) && (a.pending.Some? ==> CopyGood(net, h, a.t, a.pending.value))
  }

  // ----- reading -----

  lemma OwnerTable(net: Net, s: Sys, k: nat)
    requires SysInv(net, s) && k < |s.reqs|
    ensures s.pool.bs >= 1 && MemoryShape(s.mem, s.pool.bs) && |s.mem| == |s.pool.ref|
    ensures Holds(net, s.mem, s.reqs[k].table, s.reqs[k].tokens, s.reqs[k].computed)
    ensures BlocksNeededFor(s.reqs[k].computed, s.pool.bs) <= |s.reqs[k].table| && s.reqs[k].computed <= |s.reqs[k].tokens|
  {
    hide SysInv, Holds, Local, Rest, BlocksNeededFor;
    KvOf(net, s);
    At(net, s, k);
    LocalHolds(net, s.pool, s.mem, Rest(s.reqs, k), s.reqs[k]);
    LocalShape(net, s.pool, s.mem, Rest(s.reqs, k), s.reqs[k]);
    BlocksNeededForMeaning(s.reqs[k].computed, s.pool.bs, |s.reqs[k].table|);
  }

  /** A chunk read at any moment is right, whatever ran in between. */
  lemma {:induction false} ReadRight(net: Net, mem: Memory, c: Copy, n: nat)
    requires c.bs >= 1 && MemoryShape(mem, c.bs) && Holds(net, mem, c.table, c.tokens, c.valid)
    requires |c.read| <= c.blocks <= |c.table| && AllRight(net, c)
    ensures var c' := ReadBlocks(mem, c, n);
      && c' == c.(read := c'.read) && |c.read| <= |c'.read| <= c.blocks && AllRight(net, c')
      && (n >= c.blocks - |c.read| ==> |c'.read| == c.blocks)
    decreases n
  {
    hide Holds, Right, AllRight;
    if n > 0 && |c.read| < c.blocks {
      var i := |c.read|;
      HeldInPool(net, mem, c.table, c.tokens, c.valid);
      HeldBlockIsRight(net, mem, c.bs, c.table, c.tokens, c.valid, i);
      var next := c.(read := c.read + [mem[c.table[i]]]);
      RightGrows(net, c, mem[c.table[i]]);
      ReadRight(net, mem, next, n - 1);
    }
  }

  lemma HeldInPool(net: Net, mem: Memory, table: seq<nat>, tokens: seq<Token>, valid: nat)
    requires Holds(net, mem, table, tokens, valid)
    ensures InPool(table, |mem|)
  {
    hide Flat, RefCells;
  }

  lemma RightGrows(net: Net, c: Copy, block: seq<Cell>)
    requires AllRight(net, c) && Right(net, c.tokens, c.bs, c.valid, |c.read|, block)
    ensures AllRight(net, c.(read := c.read + [block]))
  {
    hide Right;
  }

  lemma ReadGood(net: Net, h: HostConfig, t: Tiered, c: Copy, n: nat)
    requires TierInv(net, h, t) && CopyGood(net, h, t, c)
    ensures CopyGood(net, h, t, ReadBlocks(t.s.mem, c, n))
    ensures n >= c.blocks ==> |ReadBlocks(t.s.mem, c, n).read| == c.blocks
  {
    hide SysInv, AllRight, BlocksNeededFor, Holds, Stored;
    TierSys(net, h, t);
    OwnerTable(net, t.s, c.owner);
    ReadRight(net, t.s.mem, c, n);
  }

  /** The zeroed tail is not among the valid positions. */
  lemma FinishedRight(net: Net, c: Copy)
    requires c.bs >= 1 && AllRight(net, c) && |c.read| == c.blocks == BlocksNeededFor(c.valid, c.bs)
    ensures var buffer := Buffered(c);
      |buffer| == c.blocks && forall i :: 0 <= i < |buffer| ==> Right(net, c.tokens, c.bs, c.valid, i, buffer[i])
  {
    hide RefCells;
    var tail := c.valid % c.bs;
    if tail != 0 && c.read != [] {
      BlocksNeededForMeaning(c.valid, c.bs, c.blocks);
      BlocksNeededForMeaning(c.valid, c.bs, c.blocks - 1);
      MulStep(c.blocks, c.bs);
      LastBlock(c.blocks, c.bs, c.valid);
      var last := c.blocks - 1;
      assert Right(net, c.tokens, c.bs, c.valid, last, c.read[last]);
      forall i | 0 <= i < c.blocks
        ensures Right(net, c.tokens, c.bs, c.valid, i, Buffered(c)[i])
      {
        assert Right(net, c.tokens, c.bs, c.valid, i, c.read[i]);
      }
    }
  }

  lemma FinishedHolds(net: Net, c: Copy)
    requires c.bs >= 1 && AllRight(net, c) && |c.read| == c.blocks == BlocksNeededFor(c.valid, c.bs) && c.valid <= |c.tokens|
    ensures var buffer := Buffered(c);
      |buffer| == c.blocks && MemoryShape(buffer, c.bs) && Holds(net, buffer, Identity(|buffer|), c.tokens, c.valid)
  {
    hide RefCells, Holds, Right, BlocksNeededFor, AllRight, Buffered;
    FinishedRight(net, c);
    var buffer := Buffered(c);
    forall i | 0 <= i < |buffer|
      ensures |buffer[i]| == c.bs
    {
      RightSize(net, c.tokens, c.bs, c.valid, i, buffer[i]);
    }
    BlocksNeededForMeaning(c.valid, c.bs, c.blocks);
    AssembledHolds(net, buffer, c.bs, Identity(|buffer|), c.tokens, c.valid);
  }

  lemma RightSize(net: Net, tokens: seq<Token>, bs: nat, valid: nat, i: nat, block: seq<Cell>)
    requires Right(net, tokens, bs, valid, i, block)
    ensures |block| == bs
  {
    hide RefCells;
  }

  // ----- committing -----

  lemma CommitInv(net: Net, h: HostConfig, t: Tiered, c: Copy)
    requires TierInv(net, h, t) && Current(t) && CopyGood(net, h, t, c) && |c.read| == c.blocks
    ensures var t' := CommitCopy(h, t, c);
      && TierInv(net, h, t') && Current(t') && t'.nextId == t.nextId
      && Committed(c) in t'.books.snaps && SameAsSaved(t.s.mem, t.s.reqs[c.owner].table, Committed(c))
  {
    hide SysInv, Stored, Balanced, UsesGood, DecrefAll, Local, Frame, Rest, BlocksNeededFor, Holds, Find, AllRight, Buffered, SnapsGood, SameAsSaved;
    var r, p, mem := t.s.reqs[c.owner], t.s.pool, t.s.mem;
    var q := DecrefAll(p, r.table);
    var r' := OffDevice(r, OnCpu, Some(c.id)).(epoch := c.epoch);
    KvOf(net, t.s);
    At(net, t.s, c.owner);
    DeallocateStep(net, p, mem, Rest(t.s.reqs, c.owner), r, r');
    PausedStep(net, t.s, c.owner, q, mem, r');
    FinishedHolds(net, c);
    OwnerTable(net, t.s, c.owner);
    HoldsIsSame(net, mem, r.table, Committed(c));
    var t' := CommitCopy(h, t, c);
    assert t'.s == SetReq(t.s, c.owner, q, r').(mem := mem);
    RegisterSnap(net, h, t, Committed(c), t');
    DecrefAllFrame(p, r.table);
    assert t'.books.snaps == t.books.snaps + [Committed(c)];
  }

  /** A copy that is waited for always commits what the request's table holds: in no reachable
      state is a complete copy stale. */
  lemma WaitCommits(net: Net, h: HostConfig, a: Async)
    requires AsyncInv(net, h, a) && a.pending.Some?
    ensures var k, c, b := a.pending.value.owner, ReadBlocks(a.t.s.mem, a.pending.value, a.pending.value.blocks), PollCopy(h, a, true, false);
      && c.bs >= 1 && k < |a.t.s.reqs| && b.pending.None?
      && Committed(c) in b.t.books.snaps && Committed(c).owner == k && Committed(c).valid == a.t.s.reqs[k].computed
      && SameAsSaved(a.t.s.mem, a.t.s.reqs[k].table, Committed(c))
  {
    hide TierInv, Current, AllRight, SameAsSaved, ReadBlocks, CommitCopy, BlocksNeededFor, Stored;
    ReadGood(net, h, a.t, a.pending.value, a.pending.value.blocks);
    ReadKeeps(a.t.s.mem, a.pending.value, a.pending.value.blocks);
    CommitInv(net, h, a.t, ReadBlocks(a.t.s.mem, a.pending.value, a.pending.value.blocks));
  }

  lemma {:induction false} ReadKeeps(mem: Memory, c: Copy, n: nat)
    ensures var c' := ReadBlocks(mem, c, n); c' == c.(read := c'.read)
    decreases n
  {
    if n > 0 && |c.read| < c.blocks && |c.read| < |c.table| {
      var b := c.table[|c.read|];
      ReadKeeps(mem, c.(read := c.read + [if b < |mem| then mem[b] else []]), n - 1);
    }
  }

  lemma PollInv(net: Net, h: HostConfig, a: Async, wait: bool, cancel: bool)
    requires AsyncInv(net, h, a)
    ensures AsyncInv(net, h, PollCopy(h, a, wait, cancel))
    ensures wait ==> PollCopy(h, a, wait, cancel).pending.None?
    ensures cancel ==> PollCopy(h, a, wait, cancel).t == a.t
  {
    hide TierInv, Current, CopyGood, ReadBlocks, CommitCopy;
    if a.pending.Some? {
      var c0 := a.pending.value;
      ReadGood(net, h, a.t, c0, c0.blocks);
      ReadKeeps(a.t.s.mem, c0, c0.blocks);
      var c := if wait then ReadBlocks(a.t.s.mem, c0, c0.blocks) else c0;
      CopySizes(net, h, a.t, c);
      if |c.read| >= c.blocks {
        CommitInv(net, h, a.t, c);
      }
    }
  }

  lemma CopySizes(net: Net, h: HostConfig, t: Tiered, c: Copy)
    requires CopyGood(net, h, t, c)
    ensures |c.read| <= c.blocks && StillValid(t, c)
  {
    hide AllRight, BlocksNeededFor, Stored;
  }

  lemma OnHostHasNoTable(net: Net, h: HostConfig, t: Tiered, k: nat)
    requires TierInv(net, h, t) && k < |t.s.reqs|
    ensures t.s.reqs[k].residency == OnCpu ==> t.s.reqs[k].table == []
  {
    hide SysInv, Stored, Balanced, UsesGood, BlocksNeededFor, Holds;
    FindMeaning(t.books.snaps, k);
  }

  lemma EarlyCurrent(h: HostConfig, t: Tiered, k: nat, copyFails: bool)
    requires Current(t) && t.s.pool.bs >= 1
    ensures Current(EarlySave(h, t, k, copyFails).0)
  {
    hide EarlySave;
    EarlySaveFrame(h, t, k, copyFails);
    EarlyMarks(h, t, k, copyFails);
  }

  lemma EnqueueInv(net: Net, h: HostConfig, a: Async, k: nat, launch: Launch)
    requires AsyncInv(net, h, a) && a.t.s.pool.bs >= 1
    ensures AsyncInv(net, h, EnqueueSave(h, a, k, launch))
  {
    hide SysInv, Stored, Balanced, UsesGood, Find, SnapsGood, BlocksNeededFor, EarlySave, EarlyFrame;
    NextIdInv(net, h, a.t);
    if launch.Inline? {
      EarlySaveInv(net, h, a.t, k, launch.copyFails);
      EarlyCurrent(h, a.t, k, launch.copyFails);
    } else if k < |a.t.s.reqs| && a.t.s.reqs[k].table != [] {
      OnHostHasNoTable(net, h, a.t, k);
      forall x | x in a.t.books.snaps
        ensures x.id < a.t.nextId
      {
        SnapIds(net, a.t, x);
      }
    }
  }

  // ----- beside the engine -----

  /** An operation that leaves the copy alone. */
  ghost predicate Undisturbed(h: HostConfig, t: Tiered, t': Tiered, k: nat) {
    && SameMarks(t, t') && t'.nextId >= t.nextId
    && k < |t.s.reqs| <= |t'.s.reqs| && t'.s.reqs[k] == t.s.reqs[k]
    && Stored(h, t'.books.snaps) <= Stored(h, t.books.snaps) && forall x :: x in t'.books.snaps ==> x in t.books.snaps
  }

  lemma CopyStays(net: Net, h: HostConfig, t: Tiered, t': Tiered, c: Copy)
    requires CopyGood(net, h, t, c) && Undisturbed(h, t, t', c.owner)
    ensures CopyGood(net, h, t', c)
  {
    hide AllRight, BlocksNeededFor, Stored;
  }

  lemma ResumeElsewhere(net: Net, h: HostConfig, t: Tiered, k: nat, suffix: seq<Token>, q: Params, copyFails: bool)
    requires TierInv(net, h, t) && t.s.pool.bs >= 1
    ensures var t' := ResumeTiered(h, t, k, suffix, q, copyFails).0;
      && |t'.s.reqs| == |t.s.reqs| && t'.nextId == t.nextId
      && (forall j :: 0 <= j < |t.s.reqs| && j != k ==> t'.s.reqs[j] == t.s.reqs[j])
      && Stored(h, t'.books.snaps) <= Stored(h, t.books.snaps)
  {
    hide SysInv, Stored, Balanced, SnapsGood, UsesGood, Resume, RestoreSnap, DecrefAll, Bytes, Find, Forget, AddUse;
    TierOrdered(net, h, t);
    ForgetShape(h, t.books, k);
    FindMeaning(t.books.snaps, k);
    if k < |t.s.reqs| {
      ResumeOthers(t.s, k, suffix, q);
      if Find(t.books.snaps, k).Some? {
        var snap := Find(t.books.snaps, k).value;
        StoredWithout(h, t.books.snaps, snap);
        RestoreOthers(h, t, k, snap, copyFails);
        var s1 := RestoreSnap(h, t, k, snap, copyFails).0;
        if s1.pool.bs >= 1 {
          ResumeOthers(s1, k, suffix, q);
        }
        AddUseSnaps(h, t.books, snap);
      }
    }
  }

  lemma AddUseSnaps(h: HostConfig, b: Books, snap: Snap)
    ensures forall n: nat, valid: nat, table: seq<nat> :: AddUse(h, b, snap, n, valid, table).snaps == Without(b.snaps, snap)
  {
    hide Bytes;
  }

  lemma ResumeOthers(s: Sys, k: nat, suffix: seq<Token>, q: Params)
    requires s.pool.bs >= 1
    ensures var resumed := Resume(s, k, suffix, q.maxTokens, q.hold, q.policy, q.stops, q.ignoreEos);
      resumed.Some? ==> |resumed.value.reqs| == |s.reqs| && forall j :: 0 <= j < |s.reqs| && j != k ==> resumed.value.reqs[j] == s.reqs[j]
  {
    hide BlocksNeededFor;
  }

  lemma RestoreOthers(h: HostConfig, t: Tiered, k: nat, snap: Snap, copyFails: bool)
    requires k < |t.s.reqs| && t.s.pool.bs >= 1
    ensures var s1 := RestoreSnap(h, t, k, snap, copyFails).0;
      |s1.reqs| == |t.s.reqs| && forall j :: 0 <= j < |t.s.reqs| && j != k ==> s1.reqs[j] == t.s.reqs[j]
  {
    hide DeviceHits, RebuildTable, Imported, Pins, PlainTable;
    PinsCount(DeviceHits(t.s.pool, t.s.reqs[k].tokens, snap.valid, |snap.buffer|));
  }

  lemma StepUndisturbs(net: Net, cfg: Config, h: HostConfig, propose: Proposer, t: Tiered, k: nat)
    requires TierInv(net, h, t) && k < |t.s.reqs| && t.s.reqs[k].status == Paused
    ensures Undisturbed(h, t, StepTiered(net, cfg, h, propose, t).0, k)
  {
    hide SysInv, SnapsGood, UsesGood, Stored, ScheduleLoop, PagedBatch, MarkAll, TierInv, Balanced;
    TierSys(net, h, t);
    TierBalanced(net, h, t);
    StepTieredInv(net, cfg, h, propose, t);
    StepRefines(net, cfg, propose, t.s);
    StepSteady(net, cfg, propose, t.s);
    StepFrame(net, cfg, propose, t.s);
    var outcome := Schedule(cfg, propose, t.s);
    if outcome.Scheduled? {
      MarkAllKeeps(h, t.books, outcome.s.reqs, NormalIds(outcome.s, outcome.ids));
    }
  }

  lemma ApplyUndisturbs(net: Net, cfg: Config, h: HostConfig, t: Tiered, op: TierOp, k: nat)
    requires TierInv(net, h, t) && k < |t.s.reqs| && t.s.reqs[k].status == Paused && t.s.reqs[k].residency != OnCpu
    requires !Resets(op) && !op.TAbort? && !op.TSave? && !op.TEarly? && !op.TReclaim? && (op.TResume? || op.TFinish? ==> op.id != k)
    ensures Undisturbed(h, t, TierApply(net, cfg, h, t, op).1, k)
  {
    hide TierInv, StepTiered, ResumeTiered, Save, EarlySave, EvictOldest, FinishTiered, HostOp, Stored;
    TierSys(net, h, t);
    SysSize(net, t.s);
    ApplyMarks(net, cfg, h, t, op);
    match op
    case TAdd(tokens, q) => AddShape(t.s, tokens, q);
    case TStep(propose) => StepUndisturbs(net, cfg, h, propose, t, k);
    case TResume(j, suffix, q, copyFails) =>
      ResumeDrops(net, h, t, j, suffix, q, copyFails);
      ResumeElsewhere(net, h, t, j, suffix, q, copyFails);
    case TEvict =>
      if t.books.snaps != [] {
        TierOrdered(net, h, t);
        EvictOldestInv(net, h, t);
        EvictOldestBooks(h, t);
        WithoutKeepsOrder(t.books.snaps, t.books.snaps[0]);
        StoredWithout(h, t.books.snaps, t.books.snaps[0]);
        DropSnapSnaps(h, t.books, t.books.snaps[0]);
      }
    case TFinish(j) =>
      FinishTieredInv(net, h, t, j);
      FinishElsewhere(net, h, t, j);
    case _ =>
  }

  lemma FinishElsewhere(net: Net, h: HostConfig, t: Tiered, j: nat)
    requires TierInv(net, h, t)
    ensures var t' := FinishTiered(h, t, j);
      && Stored(h, t'.books.snaps) <= Stored(h, t.books.snaps) && |t'.s.reqs| == |t.s.reqs|
      && forall k :: 0 <= k < |t.s.reqs| && k != j ==> t'.s.reqs[k] == t.s.reqs[k]
  {
    hide SysInv, Stored, SnapsGood, UsesGood, Balanced, Forget, Release;
    TierOrdered(net, h, t);
    ForgetShape(h, t.books, j);
    if j < |t.s.reqs| && t.s.reqs[j].status != Finished {
      ReleaseShape(t.s, j);
    }
  }

  // ----- whole runs -----

  ghost predicate CarefulOp(t: Tiered, op: AsyncOp) {
    op.Do? && op.op.TInvalidate? ==> SafeToInvalidate(t.s)
  }

  /** Every operation, at any point of the copy, keeps the books and the copy right. */
  lemma AsyncApplyInv(net: Net, cfg: Config, h: HostConfig, a: Async, op: AsyncOp)
    requires AsyncInv(net, h, a) && CarefulOp(a.t, op)
    ensures var (net', a', event) := AsyncApply(net, cfg, h, a, op); AsyncInv(net', h, a') && event != Corrupt
  {
    hide TierInv, Current, CopyGood, PollCopy, EnqueueSave, ReadBlocks, TierApply, SafeToInvalidate, AbortTargets, FinishAll;
    TierSys(net, h, a.t);
    SysSize(net, a.t.s);
    match op
    case Enqueue(k, launch) => EnqueueInv(net, h, a, k, launch);
    case ReadChunk(n) =>
      if a.pending.Some? {
        ReadGood(net, h, a.t, a.pending.value, n);
      }
    case Poll => PollInv(net, h, a, false, false);
    case Do(top) =>
      if top.TEarly? {
        EnqueueInv(net, h, a, top.id, InFlight);
      } else if top.TAbort? && a.pending.Some? {
        AbortInv(net, h, a, a.t.s.waiting + a.t.s.running + AbortTargets(a.t.s.reqs, a.pending.value.owner));
      } else {
        DoInv(net, cfg, h, a, top);
      }
  }

  lemma AbortInv(net: Net, h: HostConfig, a: Async, ids: seq<nat>)
    requires AsyncInv(net, h, a)
    ensures AsyncInv(net, h, Async(FinishAll(h, a.t, ids), None))
  {
    hide TierInv, FinishAll, CopyGood, SameMarks;
    FinishAllInv(net, h, a.t, ids);
    FinishAllMarks(h, a.t, ids);
    MarksAgree(a.t, FinishAll(h, a.t, ids));
  }

  lemma DoInv(net: Net, cfg: Config, h: HostConfig, a: Async, top: TierOp)
    requires AsyncInv(net, h, a) && (top.TInvalidate? ==> SafeToInvalidate(a.t.s)) && (top.TAbort? ==> a.pending.None?) && !top.TEarly?
    ensures var b := Before(h, a, top);
      var (net', t', e) := TierApply(net, cfg, h, b.t, top);
      AsyncInv(net', h, Async(t', b.pending)) && e != Corrupt
  {
    hide TierInv, Current, CopyGood, PollCopy, TierApply, SafeToInvalidate;
    PollInv(net, h, a, true, false);
    PollInv(net, h, a, true, true);
    var b := Before(h, a, top);
    TierApplyInv(net, cfg, h, b.t, top);
    ApplyCurrent(net, cfg, h, b.t, top);
    if b.pending.Some? {
      CopyOwner(net, h, b.t, b.pending.value);
      ApplyUndisturbs(net, cfg, h, b.t, top, b.pending.value.owner);
      CopyStays(net, h, b.t, TierApply(net, cfg, h, b.t, top).1, b.pending.value);
      OnlyResetsChangeNet(net, cfg, h, b.t, top);
    }
  }

  lemma CopyOwner(net: Net, h: HostConfig, t: Tiered, c: Copy)
    requires CopyGood(net, h, t, c)
    ensures c.owner < |t.s.reqs| && t.s.reqs[c.owner].status == Paused && t.s.reqs[c.owner].residency != OnCpu
  {
    hide AllRight, BlocksNeededFor, Stored;
  }

  lemma OnlyResetsChangeNet(net: Net, cfg: Config, h: HostConfig, t: Tiered, op: TierOp)
    requires !Resets(op)
    ensures TierApply(net, cfg, h, t, op).0 == net
  {
    hide StepTiered, ResumeTiered, Save, EarlySave, EvictOldest, ReclaimGroup, FinishTiered, FinishAll, HostOp, OnHost;
  }

  ghost function AsyncRun(net: Net, cfg: Config, h: HostConfig, a: Async, ops: seq<AsyncOp>): (Net, Async, seq<Event>)
    decreases |ops|
  {
    if ops == [] then (net, a, [])
    else
      var (net1, a1, e) := AsyncApply(net, cfg, h, a, ops[0]);
      var (net2, a2, more) := AsyncRun(net1, cfg, h, a1, ops[1..]);
      (net2, a2, [e] + more)
  }

  ghost predicate CarefulAsync(net: Net, cfg: Config, h: HostConfig, a: Async, ops: seq<AsyncOp>)
    decreases |ops|
  {
    ops == [] || (CarefulOp(a.t, ops[0])
                  && var (net1, a1, _) := AsyncApply(net, cfg, h, a, ops[0]); CarefulAsync(net1, cfg, h, a1, ops[1..]))
  }

  lemma {:induction false} AsyncRunInv(net: Net, cfg: Config, h: HostConfig, a: Async, ops: seq<AsyncOp>)
    requires AsyncInv(net, h, a) && CarefulAsync(net, cfg, h, a, ops)
    ensures var (net', a', events) := AsyncRun(net, cfg, h, a, ops); AsyncInv(net', h, a') && Corrupt !in events
    decreases |ops|
  {
    hide AsyncInv, AsyncApply, CarefulOp;
    if ops != [] {
      AsyncApplyInv(net, cfg, h, a, ops[0]);
      var (net1, a1, e) := AsyncApply(net, cfg, h, a, ops[0]);
      AsyncRunInv(net1, cfg, h, a1, ops[1..]);
    }
  }

  /** While a copy is pending its source blocks belong to the paused request: referenced, not
      free, and still holding exactly what is to be saved. */
  lemma SourceIsStable(net: Net, h: HostConfig, a: Async, i: nat)
    requires AsyncInv(net, h, a) && a.pending.Some? && i < a.pending.value.blocks
    ensures var c, s := a.pending.value, a.t.s;
      && c.owner < |s.reqs| && s.reqs[c.owner].table == c.table && i < |c.table| && c.table[i] < |s.mem| && |s.mem| == |s.pool.ref|
      && s.pool.ref[c.table[i]] >= 1 && c.table[i] !in s.pool.free
      && Right(net, c.tokens, c.bs, c.valid, i, s.mem[c.table[i]])
  {
    hide SysInv, SnapsGood, UsesGood, Stored, BlocksNeededFor, Holds, Right, Held, PoolInv, AllRight, CacheHolds, Rest, TierInv, Current;
    var c, s := a.pending.value, a.t.s;
    TierSys(net, h, a.t);
    OwnerTable(net, s, c.owner);
    HeldInPool(net, s.mem, c.table, c.tokens, c.valid);
    HeldBlockIsRight(net, s.mem, c.bs, c.table, c.tokens, c.valid, i);
    KvOf(net, s);
    HeldSplit(s.reqs, c.owner);
    TableInHeld(c.table, Held(s.reqs));
    PoolInvMeaning(s.pool, Held(s.reqs));
  }
}

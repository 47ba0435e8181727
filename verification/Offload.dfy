/** Paused sessions in host memory: whole-snapshot save, eviction and mixed restore as one
    state machine around the engine, with its byte ledger. */
module Offload {
  import opened Kv
  import opened BlockPool
  import opened Requests
  import opened Ownership
  import opened OwnershipSteps
  import opened System
  import opened SystemInv
  import opened ScheduleInv
  import opened Engine
  import opened Runs
  import opened Transfer
  import opened Restore
  import opened PlainRestore

  // ----- the books -----

  datatype Snap = Snap(owner: nat, id: nat, tokens: seq<Token>, valid: nat, bs: nat, weights: nat, epoch: nat, buffer: Memory)

  /** A restore whose bytes have not yet been seen to be used. */
  datatype Use = Use(owner: nat, written: nat, imported: nat, valid: nat, table: seq<nat>)

  /** Snapshots oldest first. */
  datatype Books = Books(snaps: seq<Snap>, uses: seq<Use>, written: nat, used: nat, unused: nat)

  datatype Tiered = Tiered(s: Sys, books: Books, nextId: nat, weights: nat)

  /** `mixed` chooses the restore that fills holes between device hits. */
  datatype HostConfig = HostConfig(maxBytes: nat, blockBytes: nat, mixed: bool)

  function Find(snaps: seq<Snap>, k: nat): Option<Snap> {
    if snaps == [] then None else if snaps[0].owner == k then Some(snaps[0]) else Find(snaps[1..], k)
  }

  function FindUse(uses: seq<Use>, k: nat): Option<Use> {
    if uses == [] then None else if uses[0].owner == k then Some(uses[0]) else FindUse(uses[1..], k)
  }

  function BlockBytes(h: HostConfig, blocks: nat): nat {
    blocks * h.blockBytes
  }

  function Bytes(h: HostConfig, snap: Snap): nat {
    BlockBytes(h, |snap.buffer|)
  }

  function Stored(h: HostConfig, snaps: seq<Snap>): nat {
    if snaps == [] then 0 else Bytes(h, snaps[0]) + Stored(h, snaps[1..])
  }

  function Awaited(uses: seq<Use>): nat {
    if uses == [] then 0 else uses[0].written + Awaited(uses[1..])
  }

  /** Every committed byte was restored and used, written in vain, or is still waiting. */
  ghost predicate Balanced(h: HostConfig, b: Books) {
    b.written == b.used + b.unused + Stored(h, b.snaps) + Awaited(b.uses)
  }

  lemma {:induction false} StoredAppend(h: HostConfig, snaps: seq<Snap>, snap: Snap)
    ensures Stored(h, snaps + [snap]) == Stored(h, snaps) + Bytes(h, snap)
  {
    hide Bytes;
    if snaps == [] {
      assert [snap][1..] == [] && snaps + [snap] == [snap];
    } else {
      assert (snaps + [snap])[1..] == snaps[1..] + [snap];
      StoredAppend(h, snaps[1..], snap);
    }
  }

  lemma {:induction false} StoredWithout(h: HostConfig, snaps: seq<Snap>, snap: Snap)
    requires snap in snaps
    ensures Stored(h, Without(snaps, snap)) == Stored(h, snaps) - Bytes(h, snap)
  {
    hide Bytes;
    if snaps[0] != snap {
      StoredWithout(h, snaps[1..], snap);
      assert ([snaps[0]] + Without(snaps[1..], snap))[1..] == Without(snaps[1..], snap);
    }
  }

  lemma {:induction false} AwaitedWithout(uses: seq<Use>, use: Use)
    requires use in uses
    ensures Awaited(Without(uses, use)) == Awaited(uses) - use.written
  {
    if uses[0] != use {
      AwaitedWithout(uses[1..], use);
      assert ([uses[0]] + Without(uses[1..], use))[1..] == Without(uses[1..], use);
    }
  }

  lemma {:induction false} AwaitedAppend(uses: seq<Use>, use: Use)
    ensures Awaited(uses + [use]) == Awaited(uses) + use.written
  {
    if uses == [] {
      assert [use][1..] == [] && uses + [use] == [use];
    } else {
      assert (uses + [use])[1..] == uses[1..] + [use];
      AwaitedAppend(uses[1..], use);
    }
  }

  lemma {:induction false} FindMeaning(snaps: seq<Snap>, k: nat)
    ensures Find(snaps, k).Some? ==> Find(snaps, k).value in snaps && Find(snaps, k).value.owner == k
    ensures Find(snaps, k).None? ==> forall snap :: snap in snaps ==> snap.owner != k
  {
    if snaps != [] && snaps[0].owner != k {
      FindMeaning(snaps[1..], k);
    }
  }

  lemma {:induction false} FindUseMeaning(uses: seq<Use>, k: nat)
    ensures FindUse(uses, k).Some? ==> FindUse(uses, k).value in uses && FindUse(uses, k).value.owner == k
  {
    if uses != [] && uses[0].owner != k {
      FindUseMeaning(uses[1..], k);
    }
  }

  // ----- movements on the books -----

  /** `_pending_use.pop` counted as waste. */
  function DropUse(b: Books, k: nat): Books {
    match FindUse(b.uses, k)
    case None => b
    case Some(use) => b.(uses := Without(b.uses, use), unused := b.unused + use.written)
  }

  /** A snapshot leaves without having been restored. */
  function DropSnap(h: HostConfig, b: Books, snap: Snap): Books {
    b.(snaps := Without(b.snaps, snap), unused := b.unused + Bytes(h, snap))
  }

  /** `remove`. */
  function Forget(h: HostConfig, b: Books, k: nat): Books {
    var b1 := DropUse(b, k);
    match Find(b1.snaps, k)
    case None => b1
    case Some(snap) => DropSnap(h, b1, snap)
  }

  function AddSnap(h: HostConfig, b: Books, snap: Snap): Books {
    b.(snaps := b.snaps + [snap], written := b.written + Bytes(h, snap))
  }

  /** `commit_restore`: the snapshot's bytes now wait to be used. */
  function AddUse(h: HostConfig, b: Books, snap: Snap, imported: nat, valid: nat, table: seq<nat>): Books {
    var b1 := DropUseQuietly(b, snap.owner);
    b1.(snaps := Without(b1.snaps, snap), uses := b1.uses + [Use(snap.owner, Bytes(h, snap), imported, valid, table)])
  }

  /** An assignment to the pending map replaces an entry that is still there. */
  function DropUseQuietly(b: Books, k: nat): Books {
    match FindUse(b.uses, k)
    case None => b
    case Some(use) => b.(uses := Without(b.uses, use))
  }

  /** `mark_used` for one scheduled request. */
  function MarkUsed(b: Books, k: nat, r: Req): Books {
    match FindUse(b.uses, k)
    case None => b
    case Some(use) =>
      var b1 := b.(uses := Without(b.uses, use));
      if r.computed < use.valid || !(use.table <= r.table) then b1.(unused := b1.unused + use.written)
      else
        var n := Min(use.written, use.imported);
        b1.(used := b1.used + n, unused := b1.unused + (use.written - n))
  }

  function MarkAll(b: Books, reqs: seq<Req>, ids: seq<nat>): Books
    decreases |ids|
  {
    if ids == [] then b
    else MarkAll(if ids[0] < |reqs| then MarkUsed(b, ids[0], reqs[ids[0]]) else b, reqs, ids[1..])
  }

  /** `invalidate_all`. */
  function ForgetAll(h: HostConfig, b: Books): Books {
    b.(snaps := [], uses := [], unused := b.unused + Awaited(b.uses) + Stored(h, b.snaps))
  }

  lemma DropUseBalanced(h: HostConfig, b: Books, k: nat)
    requires Balanced(h, b)
    ensures Balanced(h, DropUse(b, k)) && DropUse(b, k).snaps == b.snaps
  {
    FindUseMeaning(b.uses, k);
    if FindUse(b.uses, k).Some? {
      AwaitedWithout(b.uses, FindUse(b.uses, k).value);
    }
  }

  lemma DropSnapBalanced(h: HostConfig, b: Books, snap: Snap)
    requires Balanced(h, b) && snap in b.snaps
    ensures Balanced(h, DropSnap(h, b, snap))
  {
    hide Bytes;
    StoredWithout(h, b.snaps, snap);
  }

  lemma ForgetBalanced(h: HostConfig, b: Books, k: nat)
    requires Balanced(h, b)
    ensures Balanced(h, Forget(h, b, k))
  {
    hide Balanced, DropUse, DropSnap;
    DropUseBalanced(h, b, k);
    FindMeaning(DropUse(b, k).snaps, k);
    if Find(DropUse(b, k).snaps, k).Some? {
      DropSnapBalanced(h, DropUse(b, k), Find(DropUse(b, k).snaps, k).value);
    }
  }

  lemma AddSnapBalanced(h: HostConfig, b: Books, snap: Snap)
    requires Balanced(h, b)
    ensures Balanced(h, AddSnap(h, b, snap))
  {
    hide Bytes;
    StoredAppend(h, b.snaps, snap);
  }

  /** A restore moves its bytes from stored to pending; they balance exactly when no earlier
      restore of the same request is still pending. */
  lemma AddUseBalanced(h: HostConfig, b: Books, snap: Snap, imported: nat, valid: nat, table: seq<nat>)
    requires Balanced(h, b) && snap in b.snaps && FindUse(b.uses, snap.owner).None?
    ensures Balanced(h, AddUse(h, b, snap, imported, valid, table))
  {
    hide Bytes;
    StoredWithout(h, b.snaps, snap);
    AwaitedAppend(b.uses, Use(snap.owner, Bytes(h, snap), imported, valid, table));
  }

  lemma MarkUsedBalanced(h: HostConfig, b: Books, k: nat, r: Req)
    requires Balanced(h, b)
    ensures Balanced(h, MarkUsed(b, k, r)) && MarkUsed(b, k, r).snaps == b.snaps
  {
    FindUseMeaning(b.uses, k);
    if FindUse(b.uses, k).Some? {
      AwaitedWithout(b.uses, FindUse(b.uses, k).value);
    }
  }

  // ----- operations -----

  datatype SaveResult = Saved | NotPaused | Stale | NoRoom | CopyFailed

  function OffDevice(r: Req, residency: Residency, snapshot: Option<nat>): Req {
    r.(table := [], computed := 0, scheduled := 0, cached := 0, published := 0, residency := residency, snapshot := snapshot)
  }

  /** `evict_oldest_snapshot`: the request stays paused and will prefill from cold. */
  function EvictOldest(h: HostConfig, t: Tiered): Tiered
    requires t.books.snaps != []
  {
    var snap := t.books.snaps[0];
    var t1 := t.(books := DropSnap(h, t.books, snap));
    if snap.owner >= |t.s.reqs| then t1
    else
      var r := t.s.reqs[snap.owner].(residency := NoKv, snapshot := None);
      t1.(s := SetReq(t.s, snap.owner, t.s.pool, if r.table == [] then r.(computed := 0, scheduled := 0) else r))
  }

  /** Evicts oldest snapshots until `bytes` more fit. */
  function MakeRoom(h: HostConfig, t: Tiered, bytes: nat): Tiered
    decreases |t.books.snaps|
  {
    if t.books.snaps == [] || Stored(h, t.books.snaps) + bytes <= h.maxBytes then t
    else
      DropSnapShrinks(h, t.books);
      MakeRoom(h, EvictOldest(h, t), bytes)
  }

  lemma DropSnapShrinks(h: HostConfig, b: Books)
    requires b.snaps != []
    ensures |DropSnap(h, b, b.snaps[0]).snaps| < |b.snaps|
  {
  }

  /** `_metadata` describes the request: its committed prefix lies within its history and its table. */
  ghost predicate Savable(t: Tiered, k: nat) {
    && k < |t.s.reqs| && t.s.pool.bs >= 1
    && var r := t.s.reqs[k];
       r.computed <= |r.tokens| && BlocksNeededFor(r.computed, t.s.pool.bs) <= |r.table| && InPool(r.table, |t.s.mem|)
  }

  /** `save`: the host copy is committed before the device table is released. */
  ghost function Save(h: HostConfig, t: Tiered, k: nat, copyFails: bool): (Tiered, SaveResult)
    requires t.s.pool.bs >= 1
  {
    if k >= |t.s.reqs| || t.s.reqs[k].status != Paused then (t, NotPaused)
    else
      var r := t.s.reqs[k];
      if r.residency == OnCpu && r.snapshot.Some? then (t, if Find(t.books.snaps, k).Some? then Saved else Stale)
      else
        var blocks := BlocksNeededFor(r.computed, t.s.pool.bs);
        if r.computed > |r.tokens| || blocks > |r.table| || !InPool(r.table, |t.s.mem|) then (t, Stale)
        else
          var id := t.nextId;
          var t1 := t.(nextId := t.nextId + 1);
          if BlockBytes(h, blocks) > h.maxBytes then (t1, NoRoom)
          else
            var t2 := MakeRoom(h, t1, BlockBytes(h, blocks));
            if copyFails || k >= |t2.s.reqs| then (t2, CopyFailed)
            else
              var snap := Snap(k, id, r.tokens, r.computed, t.s.pool.bs, t.weights, t.s.pool.epoch,
                               Exported(t.s.mem, r.table[..blocks], t.s.pool.bs, r.computed));
              var r' := OffDevice(r, OnCpu, Some(id)).(epoch := t.s.pool.epoch);
              (t2.(s := SetReq(t2.s, k, DecrefAll(t2.s.pool, r.table), r'), books := AddSnap(h, t2.books, snap)), Saved)
  }

  /** `begin_restore` of a matching snapshot, filling the holes between device hits. */
  function RestoreMixed(t: Tiered, k: nat, snap: Snap, copyFails: bool): (Sys, bool, nat)
    requires k < |t.s.reqs| && t.s.pool.bs >= 1
  {
    var s, r := t.s, t.s.reqs[k];
    var hits := DeviceHits(s.pool, r.tokens, snap.valid, |snap.buffer|);
    PinsCount(hits);
    var missing := |hits| - |Pins(hits)|;
    var needed := missing + if snap.valid % s.pool.bs == 0 then 1 else 0;
    match RebuildTable(s.pool, hits, needed, copyFails)
    case Refused(q) => (SetReq(s, k, q, OffDevice(r, OnCpu, r.snapshot).(parent := Root)), false, 0)
    case Rebuilt(q, table) =>
      var r' := r.(table := table, computed := snap.valid, scheduled := 0, epoch := snap.epoch, residency := OnGpu,
                   cached := |Pins(hits)| * s.pool.bs, published := 0, parent := Root);
      (MixedRestored(s, k, snap, hits, q, r'), true, missing)
  }

  /** The rebuilt table in place, the pages that no hit supplies imported into it. */
  function MixedRestored(s: Sys, k: nat, snap: Snap, hits: seq<Option<nat>>, q: Pool, r': Req): Sys
    requires k < |s.reqs| && |hits| == |snap.buffer|
  {
    var on := seq(|hits|, i requires 0 <= i < |hits| => hits[i].Some?);
    SetReq(s, k, q, r').(mem := Imported(s.mem, r'.table, Missing(snap.buffer, on), 0))
  }

  /** `begin_restore` of a matching snapshot: the cached chain first, host memory for the rest. */
  function RestorePlain(t: Tiered, k: nat, snap: Snap, copyFails: bool): (Sys, bool, nat)
    requires k < |t.s.reqs| && t.s.pool.bs >= 1
  {
    var s, r := t.s, t.s.reqs[k];
    match PlainTable(s.pool, snap.tokens, snap.valid, |snap.buffer|, copyFails)
    case PlainRefused(q, n, parent) =>
      (SetReq(s, k, q, r.(table := [], computed := 0, scheduled := 0, residency := OnCpu, cached := n * s.pool.bs, published := n, parent := parent)), false, 0)
    case PlainRebuilt(q, table, n, parent) =>
      var r' := r.(table := table, computed := snap.valid, scheduled := 0, epoch := snap.epoch, residency := OnGpu,
                   cached := n * s.pool.bs, published := n, parent := parent);
      var on := seq(|snap.buffer|, i requires 0 <= i < |snap.buffer| => i < n);
      (SetReq(s, k, q, r').(mem := Imported(s.mem, table, Missing(snap.buffer, on), 0)), true, if n <= |snap.buffer| then |snap.buffer| - n else 0)
  }

  function RestoreSnap(h: HostConfig, t: Tiered, k: nat, snap: Snap, copyFails: bool): (Sys, bool, nat)
    requires k < |t.s.reqs| && t.s.pool.bs >= 1
  {
    if h.mixed then RestoreMixed(t, k, snap, copyFails) else RestorePlain(t, k, snap, copyFails)
  }

  /** `resume_request`, restoring first if the request's KV is in host memory. */
  function ResumeTiered(h: HostConfig, t: Tiered, k: nat, suffix: seq<Token>, q: Params, copyFails: bool): (Tiered, Event)
    requires t.s.pool.bs >= 1
  {
    if k >= |t.s.reqs| then (t, Rejected)
    else if t.s.reqs[k].residency != OnCpu then
      (match Resume(t.s, k, suffix, q.maxTokens, q.hold, q.policy, q.stops, q.ignoreEos)
       case None => (t, Rejected) case Some(s') => (t.(s := s'), Done))
    else
      var r := t.s.reqs[k];
      match Find(t.books.snaps, k)
      case None => (t, Rejected)
      case Some(snap) =>
        if snap.weights != t.weights || snap.epoch != t.s.pool.epoch || snap.bs != t.s.pool.bs || snap.tokens != r.tokens || r.table != [] then
          (t.(s := SetReq(t.s, k, t.s.pool, r.(residency := NoKv, snapshot := None)), books := Forget(h, t.books, k)), Rejected)
        else
          var (s1, ok, imported) := RestoreSnap(h, t, k, snap, copyFails);
          if !ok || s1.pool.bs == 0 || k >= |s1.reqs| then (t.(s := s1), Rejected)
          else
            match Resume(s1, k, suffix, q.maxTokens, q.hold, q.policy, q.stops, q.ignoreEos)
            case None =>
              var r1 := s1.reqs[k];
              (t.(s := SetReq(s1, k, DecrefAll(s1.pool, r1.table),
                              r1.(table := [], computed := 0, scheduled := 0, residency := OnCpu, snapshot := Some(snap.id)))), Rejected)
            case Some(s2) =>
              (t.(s := s2, books := AddUse(h, t.books, snap, BlockBytes(h, imported), snap.valid, s1.reqs[k].table)), Done)
  }

  // ----- the invariant -----

  /** A registered snapshot holds exactly what its paused request has been told: the KV of
      every valid position of its whole history. */
  ghost predicate SnapGood(net: Net, t: Tiered, snap: Snap) {
    && snap.owner < |t.s.reqs| && Parked(t.s.reqs[snap.owner], snap) && snap.id < t.nextId
    && snap.bs >= 1 && MemoryShape(snap.buffer, snap.bs) && |snap.buffer| == BlocksNeededFor(snap.valid, snap.bs)
    && Holds(net, snap.buffer, Identity(|snap.buffer|), snap.tokens, snap.valid)
  }

  predicate Parked(r: Req, snap: Snap) {
    && r.status == Paused && r.residency == OnCpu && r.snapshot == Some(snap.id)
    && r.table == [] && r.computed == 0 && r.tokens == snap.tokens
  }

  ghost predicate SnapsGood(net: Net, t: Tiered) {
    && (forall snap :: snap in t.books.snaps ==> SnapGood(net, t, snap))
    && Ordered(t.books.snaps)
    && (forall k :: 0 <= k < |t.s.reqs| && t.s.reqs[k].residency == OnCpu ==> Find(t.books.snaps, k).Some?)
  }

  /** One snapshot per request, in the order in which they were taken. */
  ghost predicate Ordered(snaps: seq<Snap>) {
    && (forall i, j :: 0 <= i < j < |snaps| ==> snaps[i].owner != snaps[j].owner)
    && (forall i, j :: 0 <= i < j < |snaps| ==> snaps[i].id < snaps[j].id)
  }

  /** A pending restore belongs to a live request that has not emitted anything since. */
  ghost predicate UsesGood(t: Tiered) {
    && (forall use :: use in t.books.uses ==> use.owner < |t.s.reqs| && Unheard(t.s.reqs[use.owner]))
    && (forall i, j :: 0 <= i < j < |t.books.uses| ==> t.books.uses[i].owner != t.books.uses[j].owner)
  }

  predicate Unheard(r: Req) {
    Live(r) && |Strip(r).tokens| == r.prompt
  }

  ghost predicate TierInv(net: Net, h: HostConfig, t: Tiered) {
    && SysInv(net, t.s) && SnapsGood(net, t) && UsesGood(t)
    && Balanced(h, t.books) && Stored(h, t.books.snaps) <= h.maxBytes
  }

  lemma SnapStays(net: Net, t: Tiered, t': Tiered, snap: Snap)
    requires SnapGood(net, t, snap) && snap.owner < |t'.s.reqs| && t'.s.reqs[snap.owner] == t.s.reqs[snap.owner]
    requires t'.nextId >= t.nextId
    ensures SnapGood(net, t', snap)
  {
    hide Holds, BlocksNeededFor;
  }

  lemma OwnersDiffer(snaps: seq<Snap>, a: Snap, b: Snap)
    requires a in snaps && b in snaps && a != b && Ordered(snaps)
    ensures a.owner != b.owner && a.id != b.id
  {
  }

  // ----- eviction -----

  lemma OrderedTail(snaps: seq<Snap>)
    requires Ordered(snaps) && snaps != []
    ensures Ordered(snaps[1..]) && snaps[0] !in snaps[1..]
    ensures forall x :: x in snaps[1..] ==> x.owner != snaps[0].owner && snaps[0].id < x.id
    ensures forall x :: x in snaps <==> x == snaps[0] || x in snaps[1..]
  {
  }

  lemma OrderedCons(snap: Snap, rest: seq<Snap>)
    requires Ordered(rest) && forall x :: x in rest ==> x.owner != snap.owner && snap.id < x.id
    ensures Ordered([snap] + rest)
  {
    var all := [snap] + rest;
    forall i, j | 0 <= i < j < |all|
      ensures all[i].owner != all[j].owner && all[i].id < all[j].id
    {
      assert all[j] == rest[j - 1] && rest[j - 1] in rest;
    }
  }

  lemma {:induction false} WithoutKeepsOrder(snaps: seq<Snap>, snap: Snap)
    requires Ordered(snaps)
    ensures var rest := Without(snaps, snap);
      Ordered(rest) && forall x :: x in rest <==> x in snaps && x != snap
  {
    hide Ordered;
    if snaps != [] {
      OrderedTail(snaps);
      WithoutKeepsOrder(snaps[1..], snap);
      if snaps[0] != snap {
        OrderedCons(snaps[0], Without(snaps[1..], snap));
      }
    }
  }

  lemma {:induction false} FindAfter(snaps: seq<Snap>, snap: Snap, k: nat)
    requires k != snap.owner
    ensures Find(Without(snaps, snap), k) == Find(snaps, k)
  {
    if snaps != [] && snaps[0] != snap {
      FindAfter(snaps[1..], snap, k);
      assert ([snaps[0]] + Without(snaps[1..], snap))[1..] == Without(snaps[1..], snap);
    }
  }

  /** Dropping a snapshot turns its request into an ordinary paused one without KV. */
  lemma DropSnapInv(net: Net, h: HostConfig, t: Tiered, snap: Snap, t': Tiered)
    requires TierInv(net, h, t) && snap in t.books.snaps && snap.owner < |t.s.reqs|
    requires t'.books == DropSnap(h, t.books, snap) && t'.nextId == t.nextId
    requires t'.s == SetReq(t.s, snap.owner, t.s.pool, t.s.reqs[snap.owner].(residency := NoKv, snapshot := None))
    ensures TierInv(net, h, t')
  {
    hide SysInv, Bytes, Balanced, BlocksNeededFor, Holds, Find;
    StoredWithout(h, t.books.snaps, snap);
    DropSnapBalanced(h, t.books, snap);
    WithoutKeepsOrder(t.books.snaps, snap);
    forall x | x in t'.books.snaps
      ensures SnapGood(net, t', x)
    {
      OwnersDiffer(t.books.snaps, snap, x);
      SnapStays(net, t, t', x);
    }
    forall k | 0 <= k < |t'.s.reqs| && t'.s.reqs[k].residency == OnCpu
      ensures Find(t'.books.snaps, k).Some?
    {
      FindAfter(t.books.snaps, snap, k);
    }
    assert SnapGood(net, t, snap);
    SysMeta(net, t.s, snap.owner, NoKv, None);
  }

  /** Residency and snapshot id are no part of the engine's invariant. */
  lemma SysMeta(net: Net, s: Sys, k: nat, residency: Residency, snapshot: Option<nat>)
    requires SysInv(net, s) && k < |s.reqs|
    ensures SysInv(net, SetReq(s, k, s.pool, s.reqs[k].(residency := residency, snapshot := snapshot)))
  {
    hide KvInv, Local, Rest, AllShaped, Queues, Shaped;
    KvShape(net, s);
    var r := s.reqs[k];
    var r' := r.(residency := residency, snapshot := snapshot);
    At(net, s, k);
    SameKvKeeps(net, s.pool, s.mem, Rest(s.reqs, k), r, r');
    FrameRefl(s.pool, s.mem, Rest(s.reqs, k));
    Lift(net, s, k, s.pool, s.mem, r');
    ShapedMember(s.pool.bs, |s.pool.ref|, s.reqs, [], k);
    ShapedMeta(s.pool.bs, |s.pool.ref|, r, r');
    ShapedKeep(s.pool.bs, |s.pool.ref|, s.reqs, [], k, r');
    QueuesKeep(s.reqs, k, r', s.waiting, s.running);
  }

  lemma ShapedMeta(bs: nat, blocks: nat, r: Req, r': Req)
    requires bs >= 1 && Shaped(bs, blocks, r) && r' == r.(residency := r'.residency, snapshot := r'.snapshot)
    ensures Shaped(bs, blocks, r')
  {
    hide BlocksNeededFor;
  }

  lemma EvictOldestInv(net: Net, h: HostConfig, t: Tiered)
    requires TierInv(net, h, t) && t.books.snaps != []
    ensures TierInv(net, h, EvictOldest(h, t))
    ensures var snap := t.books.snaps[0]; var t' := EvictOldest(h, t);
      && t'.s.pool == t.s.pool && t'.s.mem == t.s.mem && |t'.s.reqs| == |t.s.reqs| && t'.nextId == t.nextId
      && t'.weights == t.weights
      && (forall k :: 0 <= k < |t.s.reqs| && t.s.reqs[k].residency != OnCpu ==> t'.s.reqs[k] == t.s.reqs[k])
  {
    hide SysInv, Balanced, Stored, UsesGood, DropSnap;
    var snap := t.books.snaps[0];
    assert snap in t.books.snaps && SnapGood(net, t, snap);
    SnapOwner(net, t, snap);
    OwnerScheduled(net, t.s, snap.owner);
    DropSnapInv(net, h, t, snap, EvictOldest(h, t));
  }

  lemma DropSnapSnaps(h: HostConfig, b: Books, snap: Snap)
    ensures DropSnap(h, b, snap).snaps == Without(b.snaps, snap)
  {
  }

  lemma SnapOwner(net: Net, t: Tiered, snap: Snap)
    requires SnapGood(net, t, snap)
    ensures snap.owner < |t.s.reqs| && Parked(t.s.reqs[snap.owner], snap)
  {
    hide Holds, BlocksNeededFor;
  }

  lemma OwnerScheduled(net: Net, s: Sys, k: nat)
    requires SysInv(net, s) && k < |s.reqs|
    ensures s.reqs[k].scheduled == 0 && s.reqs[k].draft == 0 && s.pool.bs >= 1
  {
    hide KvInv, BlocksNeededFor;
    KvShape(net, s);
    assert Shaped(s.pool.bs, |s.pool.ref|, s.reqs[k]);
  }

  /** Evicting enough always makes room for anything the whole budget could hold. */
  lemma {:induction false} MakeRoomInv(net: Net, h: HostConfig, t: Tiered, bytes: nat)
    requires TierInv(net, h, t) && bytes <= h.maxBytes
    ensures var t' := MakeRoom(h, t, bytes);
      && TierInv(net, h, t') && Stored(h, t'.books.snaps) + bytes <= h.maxBytes
      && t'.s.pool == t.s.pool && t'.s.mem == t.s.mem && |t'.s.reqs| == |t.s.reqs| && t'.nextId == t.nextId && t'.weights == t.weights
      && (forall k :: 0 <= k < |t.s.reqs| && t.s.reqs[k].residency != OnCpu ==> t'.s.reqs[k] == t.s.reqs[k])
      && (forall x :: x in t'.books.snaps ==> x in t.books.snaps)
    decreases |t.books.snaps|
  {
    hide TierInv, EvictOldest;
    if t.books.snaps != [] && Stored(h, t.books.snaps) + bytes > h.maxBytes {
      EvictOldestInv(net, h, t);
      DropSnapShrinks(h, t.books);
      EvictOldestBooks(h, t);
      TierOrdered(net, h, t);
      WithoutKeepsOrder(t.books.snaps, t.books.snaps[0]);
      MakeRoomInv(net, h, EvictOldest(h, t), bytes);
    }
  }

  /** An eviction costs a request nothing but its snapshot. */
  predicate Evicted(r: Req, r': Req) {
    r' == r || (r.residency == OnCpu && r.status == Paused && r' == r.(residency := NoKv, snapshot := None))
  }

  predicate AllEvicted(reqs: seq<Req>, reqs': seq<Req>) {
    |reqs'| == |reqs| && forall k :: 0 <= k < |reqs| ==> Evicted(reqs[k], reqs'[k])
  }

  lemma EvictedTrans(a: seq<Req>, b: seq<Req>, c: seq<Req>)
    requires AllEvicted(a, b) && AllEvicted(b, c)
    ensures AllEvicted(a, c)
  {
  }

  lemma EvictOldestQuiet(net: Net, h: HostConfig, t: Tiered)
    requires TierInv(net, h, t) && t.books.snaps != []
    ensures AllEvicted(t.s.reqs, EvictOldest(h, t).s.reqs)
  {
    hide SysInv, Balanced, Stored, UsesGood, DropSnap;
    var snap := t.books.snaps[0];
    assert snap in t.books.snaps && SnapGood(net, t, snap);
    SnapOwner(net, t, snap);
    OwnerScheduled(net, t.s, snap.owner);
  }

  lemma {:induction false} MakeRoomQuiet(net: Net, h: HostConfig, t: Tiered, bytes: nat)
    requires TierInv(net, h, t)
    ensures AllEvicted(t.s.reqs, MakeRoom(h, t, bytes).s.reqs)
    decreases |t.books.snaps|
  {
    hide TierInv, EvictOldest, Evicted;
    if t.books.snaps != [] && Stored(h, t.books.snaps) + bytes > h.maxBytes {
      EvictOldestQuiet(net, h, t);
      EvictOldestInv(net, h, t);
      DropSnapShrinks(h, t.books);
      EvictOldestBooks(h, t);
      MakeRoomQuiet(net, h, EvictOldest(h, t), bytes);
      EvictedTrans(t.s.reqs, EvictOldest(h, t).s.reqs, MakeRoom(h, t, bytes).s.reqs);
    } else {
      EvictedRefl(t.s.reqs);
    }
  }

  lemma EvictedRefl(reqs: seq<Req>)
    ensures AllEvicted(reqs, reqs)
  {
  }

  lemma TierOrdered(net: Net, h: HostConfig, t: Tiered)
    requires TierInv(net, h, t)
    ensures Ordered(t.books.snaps)
  {
    hide SysInv, Stored, SnapGood, Find;
  }

  lemma EvictOldestBooks(h: HostConfig, t: Tiered)
    requires t.books.snaps != []
    ensures EvictOldest(h, t).books == DropSnap(h, t.books, t.books.snaps[0])
  {
  }

  // ----- saving -----

  /** Evicting cache entries that nothing refers to disturbs nobody. */
  lemma EvictSys(net: Net, s: Sys, n: int)
    requires SysInv(net, s)
    ensures SysInv(net, s.(pool := EvictUnused(s.pool, n)))
  {
    hide PoolInv, ReqInv, Held, AllShaped, Queues, EvictUnused, BlockHolds;
    var q := EvictUnused(s.pool, n);
    EvictUnusedKeeps(s.pool, Held(s.reqs), n);
    KeepsFrame(s.pool, s.mem, q, Held(s.reqs));
    forall k | 0 <= k < |s.reqs|
      ensures ReqInv(net, q, s.mem, s.reqs[k])
    {
      HeldSplit(s.reqs, k);
      FrameKeeps(net, s.pool, s.mem, q, s.mem, Held(s.reqs), s.reqs[k]);
    }
  }

  lemma KeepsFrame(p: Pool, mem: Memory, q: Pool, held: multiset<nat>)
    requires Keeps(p, q, held)
    ensures Frame(p, mem, q, mem, held) && q.bs == p.bs && |q.ref| == |p.ref|
  {
  }

  /** A paused request whose KV changes by a framed local step stays in a sound system. */
  lemma PausedStep(net: Net, s: Sys, k: nat, p: Pool, mem: Memory, r: Req)
    requires SysInv(net, s) && k < |s.reqs| && s.reqs[k].status == Paused
    requires Local(net, p, mem, Rest(s.reqs, k), r) && Frame(s.pool, s.mem, p, mem, Rest(s.reqs, k))
    requires r == s.reqs[k].(table := r.table, computed := r.computed, scheduled := 0, cached := r.cached, published := r.published,
                             parent := r.parent, epoch := r.epoch, residency := r.residency, snapshot := r.snapshot)
    ensures SysInv(net, SetReq(s, k, p, r).(mem := mem))
    ensures p.bs == s.pool.bs >= 1 && |mem| == |s.mem|
  {
    hide KvInv, Local, Rest, AllShaped, Queues, Frame, Shaped;
    KvShape(net, s);
    FrameShape(s.pool, s.mem, p, mem, Rest(s.reqs, k));
    Lift(net, s, k, p, mem, r);
    ShapedMember(s.pool.bs, |s.pool.ref|, s.reqs, [], k);
    ShapedPaused(s.pool.bs, |s.pool.ref|, s.reqs[k], r);
    ShapedKeep(s.pool.bs, |s.pool.ref|, s.reqs, [], k, r);
    QueuesKeep(s.reqs, k, r, s.waiting, s.running);
  }

  lemma ShapedPaused(bs: nat, blocks: nat, r: Req, r': Req)
    requires bs >= 1 && Shaped(bs, blocks, r) && r.status == Paused
    requires r' == r.(table := r'.table, computed := r'.computed, scheduled := 0, cached := r'.cached, published := r'.published,
                      parent := r'.parent, epoch := r'.epoch, residency := r'.residency, snapshot := r'.snapshot)
    ensures Shaped(bs, blocks, r')
  {
    hide BlocksNeededFor;
  }

  lemma SavedContents(net: Net, p: Pool, mem: Memory, rest: multiset<nat>, r: Req)
    requires Local(net, p, mem, rest, r) && p.bs >= 1
    ensures var blocks := BlocksNeededFor(r.computed, p.bs);
      && blocks <= |r.table| && InPool(r.table, |mem|) && r.computed <= |r.tokens|
      && var buffer := Exported(mem, r.table[..blocks], p.bs, r.computed);
         MemoryShape(buffer, p.bs) && |buffer| == blocks && Holds(net, buffer, Identity(blocks), r.tokens, r.computed)
  {
    hide Holds, Exported, BlocksNeededFor, Flat, ChainHash, RefCells, PoolInv, CacheHolds;
    LocalShape(net, p, mem, rest, r);
    var blocks := BlocksNeededFor(r.computed, p.bs);
    BlocksNeededForMeaning(r.computed, p.bs, |r.table|);
    BlocksNeededForMeaning(r.computed, p.bs, blocks);
    TruncatedHolds(net, mem, p.bs, r.table, r.tokens, r.computed, blocks);
    ExportedHolds(net, mem, r.table[..blocks], p.bs, r.tokens, r.computed);
  }

  /** A new snapshot covers everything the request has computed. */
  ghost predicate Covers(t: Tiered, r: Req, snap: Snap) {
    snap.tokens == r.tokens && snap.valid == r.computed && snap.weights == t.weights && snap.epoch == t.s.pool.epoch && snap.bs == t.s.pool.bs
  }

  /** What a save does to the request: nothing at all unless it succeeds. */
  ghost predicate SaveOutcome(t: Tiered, k: nat, t': Tiered, result: SaveResult) {
    k < |t.s.reqs| && k < |t'.s.reqs| &&
    (if result == Saved then
       && t'.s.reqs[k].residency == OnCpu && Find(t'.books.snaps, k).Some?
       && (t.s.reqs[k].residency != OnCpu ==> Covers(t, t.s.reqs[k], Find(t'.books.snaps, k).value))
     else t'.s.reqs[k] == t.s.reqs[k])
  }

  /** A parked request is saved already; any other can be if no copy fails and host memory could
      ever hold it. */
  predicate CanSave(h: HostConfig, r: Req, bs: nat, copyFails: bool)
    requires bs >= 1
  {
    r.residency == OnCpu || (!copyFails && BlockBytes(h, BlocksNeededFor(r.computed, bs)) <= h.maxBytes)
  }

  lemma {:induction false} FindAppend(snaps: seq<Snap>, snap: Snap, k: nat)
    requires forall x :: x in snaps ==> x.owner != snap.owner
    ensures Find(snaps + [snap], k) == if k == snap.owner then Some(snap) else Find(snaps, k)
  {
    if snaps == [] {
      assert snaps + [snap] == [snap] && [snap][1..] == [];
    } else {
      assert (snaps + [snap])[1..] == snaps[1..] + [snap];
      FindAppend(snaps[1..], snap, k);
    }
  }

  lemma ResidentHasNoSnap(net: Net, h: HostConfig, t: Tiered, k: nat)
    requires TierInv(net, h, t) && k < |t.s.reqs| && t.s.reqs[k].residency != OnCpu
    ensures forall x :: x in t.books.snaps ==> x.owner != k
  {
    hide SysInv, Stored;
    forall x | x in t.books.snaps
      ensures x.owner != k
    {
      SnapOwner(net, t, x);
    }
  }

  /** Registering a good snapshot of a request that had none. */
  lemma RegisterSnap(net: Net, h: HostConfig, t: Tiered, snap: Snap, t': Tiered)
    requires TierInv(net, h, t) && snap.owner < |t.s.reqs| && t.s.reqs[snap.owner].residency != OnCpu
    requires t.s.reqs[snap.owner].status == Paused && snap.id < t.nextId
    requires SysInv(net, t'.s) && t'.books == AddSnap(h, t.books, snap) && t'.nextId == t.nextId
    requires |t'.s.reqs| == |t.s.reqs|
    requires forall k :: 0 <= k < |t.s.reqs| && k != snap.owner ==> t'.s.reqs[k] == t.s.reqs[k]
    requires SnapGood(net, t', snap) && Stored(h, t.books.snaps) + Bytes(h, snap) <= h.maxBytes
    requires forall x :: x in t.books.snaps ==> x.id < snap.id
    ensures TierInv(net, h, t')
  {
    hide SysInv, Bytes, Balanced, BlocksNeededFor, Holds, Find, Stored;
    ResidentHasNoSnap(net, h, t, snap.owner);
    StoredAppend(h, t.books.snaps, snap);
    AddSnapBalanced(h, t.books, snap);
    forall x | x in t'.books.snaps
      ensures SnapGood(net, t', x)
    {
      if x != snap {
        assert x in t.books.snaps;
        SnapStays(net, t, t', x);
      }
    }
    forall k | 0 <= k < |t'.s.reqs| && t'.s.reqs[k].residency == OnCpu
      ensures Find(t'.books.snaps, k).Some?
    {
      FindAppend(t.books.snaps, snap, k);
    }
  }

  lemma SaveInv(net: Net, h: HostConfig, t: Tiered, k: nat, copyFails: bool)
    requires TierInv(net, h, t) && t.s.pool.bs >= 1
    ensures var (t', result) := Save(h, t, k, copyFails);
      && TierInv(net, h, t')
      && (k < |t.s.reqs| && t.s.reqs[k].status == Paused ==>
            SaveOutcome(t, k, t', result) && result != Stale && (result == Saved <==> CanSave(h, t.s.reqs[k], t.s.pool.bs, copyFails)))
  {
    hide SysInv, MakeRoom, Stored, Balanced, SnapsGood, UsesGood, DecrefAll, Exported, Local, Frame, Rest, BlocksNeededFor, Holds, Find;
    if k < |t.s.reqs| && t.s.reqs[k].status == Paused {
      var r, p, mem := t.s.reqs[k], t.s.pool, t.s.mem;
      ResidentIff(net, h, t, k);
      if r.residency != OnCpu {
        KvOf(net, t.s);
        At(net, t.s, k);
        SavedContents(net, p, mem, Rest(t.s.reqs, k), r);
        var blocks := BlocksNeededFor(r.computed, p.bs);
        var t1 := t.(nextId := t.nextId + 1);
        NextIdInv(net, h, t);
        if BlockBytes(h, blocks) <= h.maxBytes {
          MakeRoomInv(net, h, t1, BlockBytes(h, blocks));
          var t2 := MakeRoom(h, t1, BlockBytes(h, blocks));
          if !copyFails {
            forall x | x in t2.books.snaps
              ensures x.id < t.nextId
            {
              SnapIds(net, t, x);
            }
            SaveCommits(net, h, t2, k, t.nextId);
          }
        }
      }
    }
  }

  lemma KvOf(net: Net, s: Sys)
    requires SysInv(net, s)
    ensures KvInv(net, s)
  {
    hide KvInv, AllShaped, Queues;
  }

  lemma ResidentIff(net: Net, h: HostConfig, t: Tiered, k: nat)
    requires TierInv(net, h, t) && k < |t.s.reqs|
    ensures t.s.reqs[k].residency == OnCpu ==> Find(t.books.snaps, k).Some? && t.s.reqs[k].snapshot.Some?
    ensures t.s.reqs[k].residency == OnCpu ==>
      var snap := Find(t.books.snaps, k).value; snap in t.books.snaps && snap.owner == k && SnapGood(net, t, snap)
  {
    hide SysInv, Stored, Balanced, UsesGood, Holds, BlocksNeededFor;
    FindMeaning(t.books.snaps, k);
  }

  lemma NextIdInv(net: Net, h: HostConfig, t: Tiered)
    requires TierInv(net, h, t)
    ensures TierInv(net, h, t.(nextId := t.nextId + 1))
  {
    hide SysInv, Stored, Balanced, Holds, BlocksNeededFor, Find;
    forall snap | snap in t.books.snaps
      ensures SnapGood(net, t.(nextId := t.nextId + 1), snap)
    {
      SnapStays(net, t, t.(nextId := t.nextId + 1), snap);
    }
  }

  lemma SnapIds(net: Net, t: Tiered, snap: Snap)
    requires SnapsGood(net, t) && snap in t.books.snaps
    ensures snap.id < t.nextId
  {
    hide Holds, BlocksNeededFor, Find;
    assert SnapGood(net, t, snap);
  }

  /** The host copy of request `k` under snapshot id `id`, and the release of its table. */
  ghost function SaveAs(h: HostConfig, t: Tiered, k: nat, id: nat): Tiered
    requires Savable(t, k)
  {
    var r := t.s.reqs[k];
    var snap := Snap(k, id, r.tokens, r.computed, t.s.pool.bs, t.weights, t.s.pool.epoch,
                     Exported(t.s.mem, r.table[..BlocksNeededFor(r.computed, t.s.pool.bs)], t.s.pool.bs, r.computed));
    t.(s := SetReq(t.s, k, DecrefAll(t.s.pool, r.table), OffDevice(r, OnCpu, Some(id)).(epoch := t.s.pool.epoch)),
       books := AddSnap(h, t.books, snap))
  }

  /** A paused resident request can be saved under any fresh id for which there is room. */
  lemma SaveCommits(net: Net, h: HostConfig, t: Tiered, k: nat, id: nat)
    requires TierInv(net, h, t) && Savable(t, k) && t.s.reqs[k].status == Paused && t.s.reqs[k].residency != OnCpu
    requires id < t.nextId && forall x :: x in t.books.snaps ==> x.id < id
    requires Stored(h, t.books.snaps) + BlockBytes(h, BlocksNeededFor(t.s.reqs[k].computed, t.s.pool.bs)) <= h.maxBytes
    ensures TierInv(net, h, SaveAs(h, t, k, id)) && Find(SaveAs(h, t, k, id).books.snaps, k).Some?
    ensures Covers(t, t.s.reqs[k], Find(SaveAs(h, t, k, id).books.snaps, k).value)
    ensures Stored(h, SaveAs(h, t, k, id).books.snaps) == Stored(h, t.books.snaps) + BlockBytes(h, BlocksNeededFor(t.s.reqs[k].computed, t.s.pool.bs))
  {
    hide SysInv, Stored, Balanced, SnapsGood, UsesGood, DecrefAll, Exported, Local, Frame, Rest, BlocksNeededFor, Holds, Find, BlockBytes;
    var r, p, mem := t.s.reqs[k], t.s.pool, t.s.mem;
    var blocks := BlocksNeededFor(r.computed, p.bs);
    var r' := OffDevice(r, OnCpu, Some(id)).(epoch := p.epoch);
    var q := DecrefAll(p, r.table);
    KvOf(net, t.s);
    At(net, t.s, k);
    SavedContents(net, p, mem, Rest(t.s.reqs, k), r);
    DeallocateStep(net, p, mem, Rest(t.s.reqs, k), r, r');
    PausedStep(net, t.s, k, q, mem, r');
    var snap := Snap(k, id, r.tokens, r.computed, p.bs, t.weights, p.epoch, Exported(mem, r.table[..blocks], p.bs, r.computed));
    var t' := SaveAs(h, t, k, id);
    assert t'.s == SetReq(t.s, k, q, r').(mem := mem);
    RegisterSnap(net, h, t, snap, t');
    ResidentIff(net, h, t', k);
    StoredAppend(h, t.books.snaps, snap);
    ResidentHasNoSnap(net, h, t, k);
    FindAppend(t.books.snaps, snap, k);
  }

  // ----- saving early -----

  /** `early_save`: only if host memory has room already.  The reservation takes one id, and the
      save that it is for takes another before finding it. */
  ghost function EarlySave(h: HostConfig, t: Tiered, k: nat, copyFails: bool): (Tiered, SaveResult)
    requires t.s.pool.bs >= 1
  {
    if k >= |t.s.reqs| then (t, NotPaused)
    else
      var r := t.s.reqs[k];
      var blocks := BlocksNeededFor(r.computed, t.s.pool.bs);
      if r.computed > |r.tokens| || blocks > |r.table| || !InPool(r.table, |t.s.mem|) then (t, Stale)
      else
        var t1 := t.(nextId := t.nextId + 1);
        if Stored(h, t.books.snaps) + BlockBytes(h, blocks) > h.maxBytes then (t1, NoRoom)
        else if r.status != Paused then (t1, NotPaused)
        else if r.residency == OnCpu && r.snapshot.Some? then (t1, if Find(t.books.snaps, k).Some? then Saved else Stale)
        else
          var t2 := t1.(nextId := t1.nextId + 1);
          if copyFails then (t2, CopyFailed) else (SaveAs(h, t2, k, t.nextId), Saved)
  }

  /** Whatever comes of it, no snapshot is evicted and nobody else is touched. */
  ghost predicate EarlyFrame(t: Tiered, k: nat, t': Tiered) {
    && t'.nextId >= t.nextId && t'.weights == t.weights && |t'.s.reqs| == |t.s.reqs|
    && (forall x :: x in t.books.snaps ==> x in t'.books.snaps)
    && (forall x :: x in t'.books.snaps && x !in t.books.snaps ==>
          x.id == t.nextId && x.owner == k && x.weights == t.weights && x.epoch == t.s.pool.epoch && x.bs == t.s.pool.bs)
    && forall j :: 0 <= j < |t.s.reqs| && j != k ==> t'.s.reqs[j] == t.s.reqs[j]
  }

  lemma EarlySaveFrame(h: HostConfig, t: Tiered, k: nat, copyFails: bool)
    requires t.s.pool.bs >= 1
    ensures EarlyFrame(t, k, EarlySave(h, t, k, copyFails).0)
  {
    hide Stored, DecrefAll, Exported, BlocksNeededFor, Find, BlockBytes;
  }

  predicate CanSaveEarly(h: HostConfig, t: Tiered, r: Req, copyFails: bool)
    requires t.s.pool.bs >= 1
  {
    || r.residency == OnCpu
    || (!copyFails && Stored(h, t.books.snaps) + BlockBytes(h, BlocksNeededFor(r.computed, t.s.pool.bs)) <= h.maxBytes)
  }

  /** It succeeds exactly when the session is parked already, or no copy fails and there is room
      beside every snapshot. */
  lemma EarlySaveInv(net: Net, h: HostConfig, t: Tiered, k: nat, copyFails: bool)
    requires TierInv(net, h, t) && t.s.pool.bs >= 1
    ensures var (t', result) := EarlySave(h, t, k, copyFails);
      && TierInv(net, h, t') && EarlyFrame(t, k, t')
      && (k < |t.s.reqs| && t.s.reqs[k].status == Paused ==>
            SaveOutcome(t, k, t', result) && result != Stale && (result == Saved <==> CanSaveEarly(h, t, t.s.reqs[k], copyFails)))
  {
    hide SysInv, Stored, Balanced, SnapsGood, UsesGood, DecrefAll, Exported, Local, Rest, BlocksNeededFor, Holds, Find, BlockBytes, EarlyFrame, SaveAs;
    EarlySaveFrame(h, t, k, copyFails);
    NextIdInv(net, h, t);
    var t1 := t.(nextId := t.nextId + 1);
    NextIdInv(net, h, t1);
    if k < |t.s.reqs| {
      ResidentIff(net, h, t, k);
      KvOf(net, t.s);
      At(net, t.s, k);
      SavedContents(net, t.s.pool, t.s.mem, Rest(t.s.reqs, k), t.s.reqs[k]);
      if t.s.reqs[k].residency == OnCpu {
        NothingToStore(net, h, t, k);
      } else if t.s.reqs[k].status == Paused && !copyFails
             && Stored(h, t.books.snaps) + BlockBytes(h, BlocksNeededFor(t.s.reqs[k].computed, t.s.pool.bs)) <= h.maxBytes {
        EarlyCommits(net, h, t, k);
      }
    }
  }

  lemma NothingToStore(net: Net, h: HostConfig, t: Tiered, k: nat)
    requires TierInv(net, h, t) && t.s.pool.bs >= 1 && k < |t.s.reqs| && t.s.reqs[k].residency == OnCpu
    ensures Stored(h, t.books.snaps) + BlockBytes(h, BlocksNeededFor(t.s.reqs[k].computed, t.s.pool.bs)) <= h.maxBytes
  {
    hide SysInv, Balanced, UsesGood, Holds, Stored;
    ResidentIff(net, h, t, k);
  }

  lemma EarlyCommits(net: Net, h: HostConfig, t: Tiered, k: nat)
    requires TierInv(net, h, t) && Savable(t, k) && t.s.reqs[k].status == Paused && t.s.reqs[k].residency != OnCpu
    requires Stored(h, t.books.snaps) + BlockBytes(h, BlocksNeededFor(t.s.reqs[k].computed, t.s.pool.bs)) <= h.maxBytes
    ensures var t2 := t.(nextId := t.nextId + 1).(nextId := t.nextId + 2); var t' := SaveAs(h, t2, k, t.nextId);
      && TierInv(net, h, t') && SaveOutcome(t, k, t', Saved)
  {
    hide SysInv, Stored, Balanced, UsesGood, DecrefAll, Exported, BlocksNeededFor, Holds, Find, BlockBytes;
    var t1 := t.(nextId := t.nextId + 1);
    NextIdInv(net, h, t);
    NextIdInv(net, h, t1);
    forall x | x in t.books.snaps
      ensures x.id < t.nextId
    {
      SnapIds(net, t, x);
    }
    SaveCommits(net, h, t1.(nextId := t1.nextId + 1), k, t.nextId);
  }

  // ----- restoring -----

  lemma SnapshotSupplies(net: Net, bs: nat, snap: Snap, hits: seq<Option<nat>>)
    requires bs >= 1 && |hits| == |snap.buffer| && MemoryShape(snap.buffer, bs)
    requires Holds(net, snap.buffer, Identity(|snap.buffer|), snap.tokens, snap.valid)
    ensures var on := seq(|hits|, i requires 0 <= i < |hits| => hits[i].Some?);
      Supplied(net, bs, snap.tokens, snap.valid, hits, Missing(snap.buffer, on))
  {
    hide Right, Holds;
    forall i | 0 <= i < |hits|
      ensures Right(net, snap.tokens, bs, snap.valid, i, snap.buffer[i])
    {
      HeldBlockIsRight(net, snap.buffer, bs, Identity(|snap.buffer|), snap.tokens, snap.valid, i);
    }
  }

  /** Gathering through the new table gives exactly the saved entries. */
  ghost predicate SameAsSaved(mem: Memory, table: seq<nat>, snap: Snap) {
    && InPool(table, |mem|) && InPool(Identity(|snap.buffer|), |snap.buffer|)
    && snap.valid <= |Flat(mem, table)| && snap.valid <= |Flat(snap.buffer, Identity(|snap.buffer|))|
    && Flat(mem, table)[..snap.valid] == Flat(snap.buffer, Identity(|snap.buffer|))[..snap.valid]
  }

  lemma LocalHolds(net: Net, p: Pool, mem: Memory, rest: multiset<nat>, r: Req)
    requires Local(net, p, mem, rest, r)
    ensures Holds(net, mem, r.table, r.tokens, r.computed)
  {
    hide PoolInv, CacheHolds, Holds, ChainHash, Flat, RefCells;
  }

  lemma HoldsIsSame(net: Net, mem: Memory, table: seq<nat>, snap: Snap)
    requires Holds(net, mem, table, snap.tokens, snap.valid)
    requires Holds(net, snap.buffer, Identity(|snap.buffer|), snap.tokens, snap.valid)
    ensures SameAsSaved(mem, table, snap)
  {
    hide Flat, RefCells;
  }

  /** What a restore leaves of the request. */
  ghost predicate RestoreOutcome(t: Tiered, k: nat, snap: Snap, s1: Sys, ok: bool) {
    && k < |t.s.reqs| && |s1.reqs| == |t.s.reqs|
    && (forall j :: 0 <= j < |t.s.reqs| && j != k ==> s1.reqs[j] == t.s.reqs[j])
    && s1.waiting == t.s.waiting && s1.running == t.s.running && s1.pool.bs == t.s.pool.bs
    && s1.reqs[k].tokens == t.s.reqs[k].tokens && s1.reqs[k].status == Paused
    && (if ok then s1.reqs[k].computed == snap.valid && s1.reqs[k].residency == OnGpu && SameAsSaved(s1.mem, s1.reqs[k].table, snap)
        else Parked(s1.reqs[k], snap) && s1.mem == t.s.mem && RolledBack(t.s.pool, Rest(t.s.reqs, k), s1.pool))
  }

  lemma RolledBackSize(p: Pool, rest: multiset<nat>, q: Pool)
    requires RolledBack(p, rest, q)
    ensures q.bs == p.bs
  {
  }

  /** A refused restore of a paused request, in place. */
  lemma RefusedPaused(net: Net, s: Sys, k: nat, q: Pool, r': Req)
    requires SysInv(net, s) && k < |s.reqs| && s.reqs[k].status == Paused && RolledBack(s.pool, Rest(s.reqs, k), q)
    requires r' == s.reqs[k].(table := [], computed := 0, scheduled := 0, residency := OnCpu, cached := r'.cached,
                              published := r'.published, parent := r'.parent)
    ensures SysInv(net, SetReq(s, k, q, r'))
  {
    hide SysInv, Local, Frame, Rest, RolledBack;
    KvOf(net, s);
    At(net, s, k);
    RefusedLocal(net, s.pool, s.mem, Rest(s.reqs, k), s.reqs[k], q, r');
    PausedStep(net, s, k, q, s.mem, r');
    assert SetReq(s, k, q, r').(mem := s.mem) == SetReq(s, k, q, r');
  }

  /** The mixed restore that got its blocks. */
  lemma MixedRebuilt(net: Net, h: HostConfig, t: Tiered, k: nat, snap: Snap, hits: seq<Option<nat>>, q: Pool, r': Req)
    requires TierInv(net, h, t) && k < |t.s.reqs| && snap in t.books.snaps && t.s.pool.bs >= 1
    requires SnapGood(net, t, snap) && snap.bs == t.s.pool.bs && snap.owner == k
    requires hits == DeviceHits(t.s.pool, t.s.reqs[k].tokens, snap.valid, |snap.buffer|) && Assembled(t.s.pool, Rest(t.s.reqs, k), hits, q, r'.table)
    requires r' == t.s.reqs[k].(table := r'.table, computed := snap.valid, scheduled := 0, epoch := snap.epoch, residency := OnGpu,
                                cached := r'.cached, published := 0, parent := Root)
    ensures |hits| == |snap.buffer| && SysInv(net, MixedRestored(t.s, k, snap, hits, q, r')) && RestoreOutcome(t, k, snap, MixedRestored(t.s, k, snap, hits, q, r'), true)
  {
    hide SysInv, TierInv, Local, Frame, Rest, BlocksNeededFor, Holds, DeviceHits, Imported, Assembled, RolledBack, Supplied, HitsValid, SameAsSaved, ChainHash;
    var s, p, r := t.s, t.s.pool, t.s.reqs[k];
    TierSys(net, h, t);
    PausedPool(net, s, k);
    DeviceHitsValid(p, Rest(s.reqs, k), r.tokens, snap.valid, |snap.buffer|);
    var on := seq(|hits|, i requires 0 <= i < |hits| => hits[i].Some?);
    SnapshotSupplies(net, p.bs, snap, hits);
    BlocksNeededForMeaning(snap.valid, p.bs, |snap.buffer|);
    SnapValid(net, t, snap);
    ChainRoot(snap.tokens, p.bs);
    ZeroBound(snap.valid, p.bs);
    RebuiltPaused(net, s, k, snap, hits, q, Missing(snap.buffer, on), r');
  }

  lemma RestoreMixedInv(net: Net, h: HostConfig, t: Tiered, k: nat, snap: Snap, copyFails: bool)
    requires TierInv(net, h, t) && k < |t.s.reqs| && snap in t.books.snaps && snap.owner == k && t.s.pool.bs >= 1
    requires SnapGood(net, t, snap) && snap.bs == t.s.pool.bs
    ensures var (s1, ok, imported) := RestoreMixed(t, k, snap, copyFails);
      SysInv(net, s1) && RestoreOutcome(t, k, snap, s1, ok)
  {
    hide SysInv, TierInv, Rest, BlocksNeededFor, Holds, RebuildTable, DeviceHits, MixedRestored, Assembled, RolledBack, HitsValid, SameAsSaved, Pins;
    var s, p, r := t.s, t.s.pool, t.s.reqs[k];
    var rest := Rest(s.reqs, k);
    TierSys(net, h, t);
    PausedPool(net, s, k);
    var hits := DeviceHits(p, r.tokens, snap.valid, |snap.buffer|);
    DeviceHitsValid(p, rest, r.tokens, snap.valid, |snap.buffer|);
    PinsCount(hits);
    var missing := |hits| - |Pins(hits)|;
    var needed := missing + if snap.valid % p.bs == 0 then 1 else 0;
    RebuildTableKeeps(p, rest, r.tokens, snap.valid, hits, needed, copyFails);
    match RebuildTable(p, hits, needed, copyFails)
    case Refused(q) =>
      RolledBackSize(p, rest, q);
      RefusedPaused(net, s, k, q, OffDevice(r, OnCpu, r.snapshot).(parent := Root));
    case Rebuilt(q, table) =>
      MixedRebuilt(net, h, t, k, snap, hits, q,
                   r.(table := table, computed := snap.valid, scheduled := 0, epoch := snap.epoch, residency := OnGpu,
                      cached := |Pins(hits)| * p.bs, published := 0, parent := Root));
  }

  lemma ZeroBound(valid: nat, bs: nat)
    requires bs >= 1
    ensures 0 <= valid / bs
  {
  }

  /** What a paused request's neighbours hold, as the restore sees it. */
  lemma PausedPool(net: Net, s: Sys, k: nat)
    requires SysInv(net, s) && k < |s.reqs| && s.reqs[k].status == Paused && s.reqs[k].table == []
    ensures PoolInv(s.pool, Rest(s.reqs, k))
  {
    hide SysInv, Local, Frame, Rest, PoolInv;
    KvOf(net, s);
    At(net, s, k);
    LocalPool(net, s.pool, s.mem, Rest(s.reqs, k), s.reqs[k]);
    assert Rest(s.reqs, k) + multiset(s.reqs[k].table) == Rest(s.reqs, k);
  }

  lemma PlainSupplies(net: Net, bs: nat, snap: Snap, table: seq<nat>, n: nat)
    requires bs >= 1 && |table| == |snap.buffer| && MemoryShape(snap.buffer, bs)
    requires Holds(net, snap.buffer, Identity(|snap.buffer|), snap.tokens, snap.valid)
    ensures var on := seq(|snap.buffer|, i requires 0 <= i < |snap.buffer| => i < n);
      Supplied(net, bs, snap.tokens, snap.valid, PrefixHits(table, n), Missing(snap.buffer, on))
  {
    hide Right, Holds;
    forall i | 0 <= i < |table|
      ensures Right(net, snap.tokens, bs, snap.valid, i, snap.buffer[i])
    {
      HeldBlockIsRight(net, snap.buffer, bs, Identity(|snap.buffer|), snap.tokens, snap.valid, i);
    }
  }

  lemma RestorePlainInv(net: Net, h: HostConfig, t: Tiered, k: nat, snap: Snap, copyFails: bool)
    requires TierInv(net, h, t) && k < |t.s.reqs| && snap in t.books.snaps && snap.owner == k && t.s.pool.bs >= 1
    requires SnapGood(net, t, snap) && snap.bs == t.s.pool.bs
    ensures var (s1, ok, imported) := RestorePlain(t, k, snap, copyFails);
      SysInv(net, s1) && RestoreOutcome(t, k, snap, s1, ok)
  {
    hide SysInv, TierInv, Local, Frame, Rest, BlocksNeededFor, Holds, PlainTable, Imported, Assembled, RolledBack, Supplied, HitsValid, SameAsSaved, ChainHash;
    var s, p, mem, r := t.s, t.s.pool, t.s.mem, t.s.reqs[k];
    var rest := Rest(s.reqs, k);
    TierSys(net, h, t);
    KvOf(net, s);
    At(net, s, k);
    LocalPool(net, p, mem, rest, r);
    assert rest + multiset(r.table) == rest;
    BlocksNeededForMeaning(snap.valid, p.bs, |snap.buffer|);
    FullWithin(snap.valid, p.bs, |snap.buffer|);
    PlainTableKeeps(p, rest, snap.tokens, snap.valid, |snap.buffer|, copyFails);
    var plain := PlainTable(p, snap.tokens, snap.valid, |snap.buffer|, copyFails);
    if plain.PlainRefused? {
      var q := plain.pool;
      var r' := r.(table := [], computed := 0, scheduled := 0, residency := OnCpu, cached := plain.attached * p.bs, published := plain.attached, parent := plain.parent);
      RefusedLocal(net, p, mem, rest, r, q, r');
      PausedStep(net, s, k, q, mem, r');
      assert SetReq(s, k, q, r').(mem := mem) == SetReq(s, k, q, r');
    } else {
      var q, table, n := plain.pool, plain.table, plain.attached;
      var r' := r.(table := table, computed := snap.valid, scheduled := 0, epoch := snap.epoch, residency := OnGpu,
                   cached := n * p.bs, published := n, parent := plain.parent);
      PlainSupplies(net, p.bs, snap, table, n);
      SnapValid(net, t, snap);
      var on := seq(|snap.buffer|, i requires 0 <= i < |snap.buffer| => i < n);
      RebuiltPaused(net, s, k, snap, PrefixHits(table, n), q, Missing(snap.buffer, on), r');
    }
  }

  lemma FullWithin(valid: nat, bs: nat, blocks: nat)
    requires bs >= 1 && valid <= blocks * bs
    ensures valid / bs <= blocks
  {
    PositionInTable(valid, blocks, bs);
    MulOrder(blocks, valid / bs, bs);
  }

  /** The assembled table of a paused request, in place. */
  lemma RebuiltPaused(net: Net, s: Sys, k: nat, snap: Snap, hits: seq<Option<nat>>, q: Pool, sources: Sources, r': Req)
    requires SysInv(net, s) && k < |s.reqs| && s.reqs[k].status == Paused && s.pool.bs >= 1
    requires Assembled(s.pool, Rest(s.reqs, k), hits, q, r'.table) && HitsValid(s.pool, snap.tokens, snap.valid, hits)
    requires Supplied(net, s.pool.bs, snap.tokens, snap.valid, hits, sources) && s.reqs[k].tokens == snap.tokens
    requires snap.valid <= |hits| * s.pool.bs && snap.valid <= |snap.tokens|
    requires Holds(net, snap.buffer, Identity(|snap.buffer|), snap.tokens, snap.valid)
    requires r' == s.reqs[k].(table := r'.table, computed := snap.valid, scheduled := 0, epoch := r'.epoch, residency := r'.residency,
                              cached := r'.cached, published := r'.published, parent := r'.parent)
    requires r'.published <= snap.valid / s.pool.bs && r'.parent == ChainHash(snap.tokens, s.pool.bs, r'.published)
    ensures var mem' := Imported(s.mem, r'.table, sources, 0);
      SysInv(net, SetReq(s, k, q, r').(mem := mem')) && SameAsSaved(mem', r'.table, snap) && q.bs == s.pool.bs
  {
    hide SysInv, Local, Frame, Rest, Holds, Imported, Assembled, Supplied, HitsValid, SameAsSaved, ChainHash;
    KvOf(net, s);
    At(net, s, k);
    AssembledSize(s.pool, Rest(s.reqs, k), hits, q, r'.table);
    AssembledLocal(net, s.pool, s.mem, Rest(s.reqs, k), s.reqs[k], snap.valid, hits, q, sources, r');
    var mem' := Imported(s.mem, r'.table, sources, 0);
    LocalHolds(net, q, mem', Rest(s.reqs, k), r');
    HoldsIsSame(net, mem', r'.table, snap);
    PausedStep(net, s, k, q, mem', r');
  }

  /** The device blocks that a restore of `snap` shares, and so pins. */
  function Shared(h: HostConfig, p: Pool, snap: Snap): (pins: seq<nat>)
    requires p.bs >= 1
  {
    if h.mixed then Pins(DeviceHits(p, snap.tokens, snap.valid, |snap.buffer|)) else AttachUpto(p, snap.tokens, snap.valid).2
  }

  /** Free and idle blocks that the plan does not pin cover what it does not share, and one more
      block if the last one is full. */
  predicate RoomToRestore(h: HostConfig, p: Pool, snap: Snap)
    requires p.bs >= 1
  {
    var pins := Shared(h, p, snap);
    |snap.buffer| - |pins| + (if snap.valid % p.bs == 0 then 1 else 0) <= Available(p) - |IdlePins(p, pins)|
  }

  lemma MixedExact(net: Net, h: HostConfig, t: Tiered, k: nat, snap: Snap, copyFails: bool)
    requires SysInv(net, t.s) && k < |t.s.reqs| && Parked(t.s.reqs[k], snap) && t.s.pool.bs >= 1 && h.mixed
    ensures RestoreMixed(t, k, snap, copyFails).1 <==> !copyFails && RoomToRestore(h, t.s.pool, snap)
  {
    hide SysInv, Rest, RebuildTable, DeviceHits, MixedRestored, HitsValid, Pins, IdlePins, Available;
    var p, tokens := t.s.pool, snap.tokens;
    PausedPool(net, t.s, k);
    var hits := DeviceHits(p, tokens, snap.valid, |snap.buffer|);
    DeviceHitsValid(p, Rest(t.s.reqs, k), tokens, snap.valid, |snap.buffer|);
    PinsCount(hits);
    RebuildExact(p, Rest(t.s.reqs, k), tokens, snap.valid, hits, |hits| - |Pins(hits)| + if snap.valid % p.bs == 0 then 1 else 0, copyFails);
  }

  lemma PlainRestoreExact(net: Net, h: HostConfig, t: Tiered, k: nat, snap: Snap, copyFails: bool)
    requires SysInv(net, t.s) && k < |t.s.reqs| && Parked(t.s.reqs[k], snap) && t.s.pool.bs >= 1 && !h.mixed
    requires |snap.buffer| == BlocksNeededFor(snap.valid, t.s.pool.bs)
    ensures RestorePlain(t, k, snap, copyFails).1 <==> !copyFails && RoomToRestore(h, t.s.pool, snap)
  {
    hide SysInv, Rest, PlainTable, AttachUpto, Imported, IdlePins, Available, BlocksNeededFor;
    var p := t.s.pool;
    PausedPool(net, t.s, k);
    BlocksNeededForMeaning(snap.valid, p.bs, |snap.buffer|);
    FullWithin(snap.valid, p.bs, |snap.buffer|);
    PlainExact(p, Rest(t.s.reqs, k), snap.tokens, snap.valid, |snap.buffer|, copyFails);
  }

  /** Both restores: exactly when no copy fails and there is room, the saved prefix is back in
      full; otherwise nothing has changed. */
  lemma RestoreSnapInv(net: Net, h: HostConfig, t: Tiered, k: nat, snap: Snap, copyFails: bool)
    requires TierInv(net, h, t) && k < |t.s.reqs| && snap in t.books.snaps && snap.owner == k && t.s.pool.bs >= 1
    requires SnapGood(net, t, snap) && snap.bs == t.s.pool.bs
    ensures var (s1, ok, imported) := RestoreSnap(h, t, k, snap, copyFails);
      && SysInv(net, s1) && RestoreOutcome(t, k, snap, s1, ok)
      && (ok <==> !copyFails && RoomToRestore(h, t.s.pool, snap))
  {
    hide SysInv, TierInv, RestoreOutcome, RestoreMixed, RestorePlain, RoomToRestore, Parked, Holds, BlocksNeededFor;
    TierSys(net, h, t);
    if h.mixed {
      RestoreMixedInv(net, h, t, k, snap, copyFails);
      MixedExact(net, h, t, k, snap, copyFails);
    } else {
      RestorePlainInv(net, h, t, k, snap, copyFails);
      PlainRestoreExact(net, h, t, k, snap, copyFails);
    }
  }

  lemma TierSys(net: Net, h: HostConfig, t: Tiered)
    requires TierInv(net, h, t)
    ensures SysInv(net, t.s)
  {
    hide SysInv;
  }

  lemma AssembledSize(p: Pool, rest: multiset<nat>, hits: seq<Option<nat>>, q: Pool, table: seq<nat>)
    requires Assembled(p, rest, hits, q, table)
    ensures |table| == |hits|
  {
    hide PoolInv, Calm;
  }

  lemma SnapValid(net: Net, t: Tiered, snap: Snap)
    requires SnapGood(net, t, snap)
    ensures snap.valid <= |snap.tokens|
  {
    hide Flat, RefCells, BlocksNeededFor;
  }

  // ----- resuming -----

  /** Books and queues unchanged, one request changed that has no snapshot before or after. */
  lemma SnapsElsewhere(net: Net, h: HostConfig, t: Tiered, t': Tiered, k: nat)
    requires TierInv(net, h, t) && k < |t.s.reqs| && t.s.reqs[k].residency != OnCpu
    requires t'.books.snaps == t.books.snaps && t'.nextId == t.nextId && |t'.s.reqs| == |t.s.reqs|
    requires forall j :: 0 <= j < |t.s.reqs| && j != k ==> t'.s.reqs[j] == t.s.reqs[j]
    requires t'.s.reqs[k].residency != OnCpu
    ensures SnapsGood(net, t')
  {
    hide SysInv, Balanced, BlocksNeededFor, Holds, Find, Stored;
    ResidentHasNoSnap(net, h, t, k);
    forall snap | snap in t'.books.snaps
      ensures SnapGood(net, t', snap)
    {
      SnapOwner(net, t, snap);
      SnapStays(net, t, t', snap);
    }
  }

  /** The same when the changed request stays parked with its snapshot. */
  lemma SnapsParked(net: Net, h: HostConfig, t: Tiered, t': Tiered, k: nat, snap: Snap)
    requires TierInv(net, h, t) && k < |t.s.reqs| && snap in t.books.snaps && snap.owner == k
    requires t'.books.snaps == t.books.snaps && t'.nextId == t.nextId && |t'.s.reqs| == |t.s.reqs|
    requires forall j :: 0 <= j < |t.s.reqs| && j != k ==> t'.s.reqs[j] == t.s.reqs[j]
    requires Parked(t'.s.reqs[k], snap)
    ensures SnapsGood(net, t')
  {
    hide SysInv, Balanced, BlocksNeededFor, Holds, Find, Stored;
    forall x | x in t'.books.snaps
      ensures SnapGood(net, t', x)
    {
      if x != snap {
        OwnersDiffer(t.books.snaps, snap, x);
        SnapStays(net, t, t', x);
      }
    }
    ResidentIff(net, h, t, k);
    assert SnapGood(net, t, snap);
  }

  lemma UsesElsewhere(t: Tiered, t': Tiered, k: nat)
    requires UsesGood(t) && t'.books.uses == t.books.uses && |t'.s.reqs| == |t.s.reqs|
    requires k < |t.s.reqs| && !Live(t.s.reqs[k])
    requires forall j :: 0 <= j < |t.s.reqs| && j != k ==> t'.s.reqs[j] == t.s.reqs[j]
    ensures UsesGood(t')
  {
  }

  lemma ResumeShape(net: Net, s: Sys, k: nat, suffix: seq<Token>, q: Params)
    requires SysInv(net, s) && s.pool.bs >= 1 && k < |s.reqs|
    ensures var resumed := Resume(s, k, suffix, q.maxTokens, q.hold, q.policy, q.stops, q.ignoreEos);
      resumed.Some? ==>
        var s' := resumed.value;
        && |s'.reqs| == |s.reqs| && s'.pool == s.pool && s'.mem == s.mem
        && (forall j :: 0 <= j < |s.reqs| && j != k ==> s'.reqs[j] == s.reqs[j])
        && s.reqs[k].status == Paused && s'.reqs[k].residency == s.reqs[k].residency && Unheard(s'.reqs[k])
        && s'.reqs[k].tokens == s.reqs[k].tokens + suffix && s'.reqs[k].computed == s.reqs[k].computed
        && s'.reqs[k].table == s.reqs[k].table
  {
    hide BlocksNeededFor;
    OwnerScheduled(net, s, k);
  }

  /** A resume on the device, or a restore followed by a resume: either it is rejected and the
      books still describe every request, or the request continues from what it had. */
  lemma ResumeTieredInv(net: Net, h: HostConfig, t: Tiered, k: nat, suffix: seq<Token>, q: Params, copyFails: bool)
    requires TierInv(net, h, t) && t.s.pool.bs >= 1
    ensures TierInv(net, h, ResumeTiered(h, t, k, suffix, q, copyFails).0)
  {
    hide SysInv, Stored, Balanced, SnapsGood, UsesGood, Resume, RestoreSnap, Forget, AddUse, Find, DecrefAll, RestoreOutcome, SnapGood;
    if k < |t.s.reqs| {
      var r := t.s.reqs[k];
      if r.residency != OnCpu {
        ResumeInv(net, t.s, k, suffix, q);
        ResumeShape(net, t.s, k, suffix, q);
        var resumed := Resume(t.s, k, suffix, q.maxTokens, q.hold, q.policy, q.stops, q.ignoreEos);
        if resumed.Some? {
          SnapsElsewhere(net, h, t, t.(s := resumed.value), k);
          PausedNotLive(t.s.reqs[k]);
          UsesElsewhere(t, t.(s := resumed.value), k);
        }
      } else {
        ResidentIff(net, h, t, k);
        var snap := Find(t.books.snaps, k).value;
        SnapOwner(net, t, snap);
        if snap.weights != t.weights || snap.epoch != t.s.pool.epoch || snap.bs != t.s.pool.bs {
          DiscardStale(net, h, t, k, snap);
        } else {
          RestoreThenResume(net, h, t, k, snap, suffix, q, copyFails);
        }
      }
    }
  }

  lemma PausedNotLive(r: Req)
    ensures r.status == Paused ==> !Live(r)
  {
  }

  lemma DiscardStale(net: Net, h: HostConfig, t: Tiered, k: nat, snap: Snap)
    requires TierInv(net, h, t) && k < |t.s.reqs| && Find(t.books.snaps, k) == Some(snap) && snap in t.books.snaps && snap.owner == k
    requires Parked(t.s.reqs[k], snap)
    ensures TierInv(net, h, t.(s := SetReq(t.s, k, t.s.pool, t.s.reqs[k].(residency := NoKv, snapshot := None)), books := Forget(h, t.books, k)))
  {
    hide SysInv, Stored, Balanced, SnapsGood, Find, DropSnap;
    NoUseOfPaused(t, k);
    DropSnapInv(net, h, t, snap, t.(s := SetReq(t.s, k, t.s.pool, t.s.reqs[k].(residency := NoKv, snapshot := None)), books := DropSnap(h, t.books, snap)));
  }

  lemma NoUseOfPaused(t: Tiered, k: nat)
    requires UsesGood(t) && k < |t.s.reqs| && !Live(t.s.reqs[k])
    ensures FindUse(t.books.uses, k).None? && DropUse(t.books, k) == t.books && DropUseQuietly(t.books, k) == t.books
  {
    FindUseMeaning(t.books.uses, k);
  }

  lemma RestoreThenResume(net: Net, h: HostConfig, t: Tiered, k: nat, snap: Snap, suffix: seq<Token>, q: Params, copyFails: bool)
    requires TierInv(net, h, t) && t.s.pool.bs >= 1 && k < |t.s.reqs| && snap in t.books.snaps && snap.owner == k && SnapGood(net, t, snap)
    requires Find(t.books.snaps, k) == Some(snap) && t.s.reqs[k].residency == OnCpu
    requires snap.weights == t.weights && snap.epoch == t.s.pool.epoch && snap.bs == t.s.pool.bs && Parked(t.s.reqs[k], snap)
    ensures TierInv(net, h, ResumeTiered(h, t, k, suffix, q, copyFails).0)
  {
    hide SysInv, Stored, Balanced, SnapsGood, UsesGood, Resume, RestoreSnap, Forget, AddUse, Find, DecrefAll, SnapGood, RolledBack, SameAsSaved, Rest;
    var (s1, ok, imported) := RestoreSnap(h, t, k, snap, copyFails);
    RestoreSnapInv(net, h, t, k, snap, copyFails);
    if !ok {
      SnapsParked(net, h, t, t.(s := s1), k, snap);
      UsesElsewhere(t, t.(s := s1), k);
    } else {
      ResumeInv(net, s1, k, suffix, q);
      ResumeShape(net, s1, k, suffix, q);
      var resumed := Resume(s1, k, suffix, q.maxTokens, q.hold, q.policy, q.stops, q.ignoreEos);
      if resumed.None? {
        RollBackResume(net, h, t, k, snap, s1);
      } else {
        CommitRestore(net, h, t, k, snap, s1, resumed.value, BlockBytes(h, imported));
      }
    }
  }

  /** A rejected resume undoes the restore: the snapshot still stands for the request. */
  lemma RollBackResume(net: Net, h: HostConfig, t: Tiered, k: nat, snap: Snap, s1: Sys)
    requires TierInv(net, h, t) && k < |t.s.reqs| && snap in t.books.snaps && snap.owner == k && Parked(t.s.reqs[k], snap)
    requires SysInv(net, s1) && RestoreOutcome(t, k, snap, s1, true)
    ensures var r1 := s1.reqs[k];
      TierInv(net, h, t.(s := SetReq(s1, k, DecrefAll(s1.pool, r1.table),
                                     r1.(table := [], computed := 0, scheduled := 0, residency := OnCpu, snapshot := Some(snap.id)))))
  {
    hide SysInv, Stored, Balanced, SnapsGood, UsesGood, DecrefAll, SnapGood, SameAsSaved, Local, Frame, Rest;
    var r1 := s1.reqs[k];
    var r' := r1.(table := [], computed := 0, scheduled := 0, residency := OnCpu, snapshot := Some(snap.id));
    KvOf(net, s1);
    At(net, s1, k);
    DeallocateStep(net, s1.pool, s1.mem, Rest(s1.reqs, k), r1, r');
    PausedStep(net, s1, k, DecrefAll(s1.pool, r1.table), s1.mem, r');
    var t' := t.(s := SetReq(s1, k, DecrefAll(s1.pool, r1.table), r'));
    assert t'.s == SetReq(s1, k, DecrefAll(s1.pool, r1.table), r').(mem := s1.mem);
    SnapsParked(net, h, t, t', k, snap);
    UsesElsewhere(t, t', k);
  }

  /** The restored request's snapshot is gone, all others stand. */
  lemma SnapsAfterRestore(net: Net, h: HostConfig, t: Tiered, t': Tiered, snap: Snap)
    requires TierInv(net, h, t) && snap in t.books.snaps && t'.books.snaps == Without(t.books.snaps, snap)
    requires t'.nextId == t.nextId && |t'.s.reqs| == |t.s.reqs| && snap.owner < |t.s.reqs|
    requires forall j :: 0 <= j < |t.s.reqs| && j != snap.owner ==> t'.s.reqs[j] == t.s.reqs[j]
    requires t'.s.reqs[snap.owner].residency != OnCpu
    ensures SnapsGood(net, t') && Stored(h, t'.books.snaps) <= h.maxBytes
  {
    hide SysInv, Balanced, SnapGood, Bytes, Find, UsesGood;
    StoredWithout(h, t.books.snaps, snap);
    WithoutKeepsOrder(t.books.snaps, snap);
    forall x | x in t'.books.snaps
      ensures SnapGood(net, t', x)
    {
      OwnersDiffer(t.books.snaps, snap, x);
      SnapOwner(net, t, x);
      SnapStays(net, t, t', x);
    }
    forall j | 0 <= j < |t'.s.reqs| && t'.s.reqs[j].residency == OnCpu
      ensures Find(t'.books.snaps, j).Some?
    {
      FindAfter(t.books.snaps, snap, j);
    }
  }

  lemma UsesAfterRestore(t: Tiered, t': Tiered, use: Use)
    requires UsesGood(t) && t'.books.uses == t.books.uses + [use] && |t'.s.reqs| == |t.s.reqs|
    requires use.owner < |t.s.reqs| && !Live(t.s.reqs[use.owner]) && Unheard(t'.s.reqs[use.owner])
    requires forall j :: 0 <= j < |t.s.reqs| && j != use.owner ==> t'.s.reqs[j] == t.s.reqs[j]
    ensures UsesGood(t')
  {
    assert forall u :: u in t.books.uses ==> u.owner != use.owner;
    assert forall i :: 0 <= i < |t.books.uses| ==> t.books.uses[i] in t.books.uses;
  }

  lemma CommitRestore(net: Net, h: HostConfig, t: Tiered, k: nat, snap: Snap, s1: Sys, s2: Sys, n: nat)
    requires k < |t.s.reqs| == |s1.reqs| == |s2.reqs| && s2.pool == s1.pool
    requires forall j :: 0 <= j < |s1.reqs| && j != k ==> s2.reqs[j] == s1.reqs[j]
    requires s2.reqs[k].residency == OnGpu && Unheard(s2.reqs[k])
    requires snap in t.books.snaps && snap.owner == k && Parked(t.s.reqs[k], snap)
    requires TierInv(net, h, t) && RestoreOutcome(t, k, snap, s1, true) && SysInv(net, s2)
    ensures TierInv(net, h, t.(s := s2, books := AddUse(h, t.books, snap, n, snap.valid, s1.reqs[k].table)))
  {
    hide SysInv, Stored, Balanced, SnapGood, SnapsGood, Bytes, UsesGood, RestoreOutcome, AddUse, Unheard, Find;
    NoUseOfPaused(t, k);
    OutcomeShape(t, k, snap, s1, true);
    var table := s1.reqs[k].table;
    AddUseBalanced(h, t.books, snap, n, snap.valid, table);
    AddUseShape(h, t.books, snap, n, snap.valid, table);
    var t' := t.(s := s2, books := AddUse(h, t.books, snap, n, snap.valid, table));
    SnapsAfterRestore(net, h, t, t', snap);
    UsesAfterRestore(t, t', Use(k, Bytes(h, snap), n, snap.valid, table));
  }

  lemma OutcomeShape(t: Tiered, k: nat, snap: Snap, s1: Sys, ok: bool)
    requires RestoreOutcome(t, k, snap, s1, ok)
    ensures k < |t.s.reqs| && |s1.reqs| == |t.s.reqs| && s1.pool.bs == t.s.pool.bs
    ensures forall j :: 0 <= j < |t.s.reqs| && j != k ==> s1.reqs[j] == t.s.reqs[j]
  {
  }

  lemma AddUseShape(h: HostConfig, b: Books, snap: Snap, imported: nat, valid: nat, table: seq<nat>)
    requires DropUseQuietly(b, snap.owner) == b
    ensures AddUse(h, b, snap, imported, valid, table).snaps == Without(b.snaps, snap)
    ensures AddUse(h, b, snap, imported, valid, table).uses == b.uses + [Use(snap.owner, Bytes(h, snap), imported, valid, table)]
  {
    hide Bytes;
  }
}

/** The offload manager as the object it is: an engine, a host store with its reservations, and the
    books, all changed in place.  Every method is proved equal to the function of the old state
    that the invariants of runs with host memory are stated about, and the store's own totals
    always are those of the registered snapshots. */
module OffloadManagers {
  import opened Kv
  import opened BlockPool
  import opened Requests
  import opened Ownership
  import opened OwnershipSteps
  import opened System
  import opened SystemInv
  import opened ScheduleInv
  import E = Engine
  import opened Runs
  import opened BlockManagers
  import opened Schedulers
  import opened EngineLoop
  import Outcomes
  import Transfer
  import Restore
  import PlainRestore
  import opened HostStore
  import opened Offload
  import opened Groups
  import opened Geometry
  import A = AsyncOffload
  import T = OffloadRuns

  // ----- the store and the books -----

  /** The store's committed entries are the registered snapshots, in the same order. */
  ghost predicate Mirrored(h: HostConfig, snaps: seq<Snap>, kept: seq<HostSnapshot>) {
    |kept| == |snaps| && forall i :: 0 <= i < |snaps| ==> kept[i].id == snaps[i].id && kept[i].bytes == Bytes(h, snaps[i])
  }

  lemma {:induction false} MirroredSum(h: HostConfig, snaps: seq<Snap>, kept: seq<HostSnapshot>)
    requires Mirrored(h, snaps, kept)
    ensures HeldBytes(kept, false) == Stored(h, snaps)
  {
    hide Bytes;
    if snaps != [] {
      var n := |snaps| - 1;
      MirroredSum(h, snaps[..n], kept[..n]);
      StoredAppend(h, snaps[..n], snaps[n]);
      assert snaps[..n] + [snaps[n]] == snaps;
    }
  }

  lemma MirroredTail(h: HostConfig, snaps: seq<Snap>, kept: seq<HostSnapshot>)
    requires Mirrored(h, snaps, kept) && snaps != []
    ensures |kept| == |snaps| && kept[0] in kept && Mirrored(h, snaps[1..], kept[1..])
  {
    hide Bytes;
  }

  lemma MirroredAppend(h: HostConfig, snaps: seq<Snap>, kept: seq<HostSnapshot>, snap: Snap, x: HostSnapshot)
    requires Mirrored(h, snaps, kept) && x.id == snap.id && x.bytes == Bytes(h, snap)
    ensures Mirrored(h, snaps + [snap], kept + [x])
  {
    hide Bytes;
  }

  lemma MirroredId(h: HostConfig, snaps: seq<Snap>, kept: seq<HostSnapshot>, id: nat)
    requires Mirrored(h, snaps, kept)
    ensures HostStore.Stores(kept, id) <==> exists x :: x in snaps && x.id == id
  {
    hide Bytes;
    if x :| x in snaps && x.id == id {
      var i :| 0 <= i < |snaps| && snaps[i] == x;
      assert kept[i] in kept;
    }
    if y :| y in kept && y.id == id {
      var i :| 0 <= i < |kept| && kept[i] == y;
      assert snaps[i] in snaps;
    }
  }

  lemma MirroredCons(h: HostConfig, snaps: seq<Snap>, kept: seq<HostSnapshot>, rest: seq<Snap>, left: seq<HostSnapshot>)
    requires Mirrored(h, snaps, kept) && snaps != [] && Mirrored(h, rest, left)
    ensures Mirrored(h, [snaps[0]] + rest, [kept[0]] + left)
  {
    hide Bytes;
  }

  lemma RemoveLater(kept: seq<HostSnapshot>, i: nat)
    requires 0 < i < |kept|
    ensures RemoveAt(kept, i) == [kept[0]] + RemoveAt(kept[1..], i - 1)
  {
  }

  /** Deleting by id in the store removes the snapshot with that id from the books. */
  lemma {:induction false} MirroredWithout(h: HostConfig, snaps: seq<Snap>, kept: seq<HostSnapshot>, snap: Snap, i: nat)
    requires Mirrored(h, snaps, kept) && Ordered(snaps) && snap in snaps && i < |kept| && kept[i].id == snap.id
    ensures Mirrored(h, Without(snaps, snap), RemoveAt(kept, i))
  {
    hide Bytes, Ordered, Mirrored;
    MirroredIds(h, snaps, kept, i);
    OrderedTail(snaps);
    MirroredTail(h, snaps, kept);
    if snaps[0] == snap {
      assert RemoveAt(kept, 0) == kept[1..];
    } else {
      MirroredWithout(h, snaps[1..], kept[1..], snap, i - 1);
      RemoveLater(kept, i);
      MirroredCons(h, snaps, kept, Without(snaps[1..], snap), RemoveAt(kept[1..], i - 1));
    }
  }

  lemma MirroredIds(h: HostConfig, snaps: seq<Snap>, kept: seq<HostSnapshot>, i: nat)
    requires Mirrored(h, snaps, kept) && Ordered(snaps) && i < |kept|
    ensures |kept| == |snaps| && kept[i].id == snaps[i].id && (i == 0 <==> kept[i].id == snaps[0].id)
  {
    hide Bytes;
  }

  ghost predicate AllClosed(tickets: seq<Ticket>) {
    forall i :: 0 <= i < |tickets| ==> tickets[i].state != Open
  }

  /** The members' reservations, in order; those from `from` on are still open. */
  ghost predicate Backed(all: seq<Ticket>, tickets: seq<nat>, holds: seq<Hold>, from: nat) {
    && |tickets| == |holds|
    && (forall i :: from <= i < |holds| ==> tickets[i] < |all| && all[tickets[i]] == Ticket(holds[i].id, holds[i].bytes, false, Open))
    && forall i, j :: 0 <= i < j < |tickets| ==> tickets[i] < tickets[j]
  }

  ghost predicate OnlyThese(all: seq<Ticket>, tickets: seq<nat>) {
    forall j: nat :: j < |all| && all[j].state == Open ==> j in tickets
  }

  lemma BackedSize(all: seq<Ticket>, tickets: seq<nat>, holds: seq<Hold>, i: nat)
    requires Backed(all, tickets, holds, i) && i < |holds|
    ensures i < |tickets| && tickets[i] < |all|
  {
  }

  lemma BookedSizes(h: HostConfig, g: Group, group: seq<nat>, holds: seq<Hold>)
    requires Booked(h, g, group, holds)
    ensures |holds| == |group|
  {
    hide Stored, Total, SaveBytes;
  }

  lemma TicketsLater(all: seq<Ticket>, all': seq<Ticket>, tickets: seq<nat>, holds: seq<Hold>, i: nat)
    requires Backed(all, tickets, holds, i) && OnlyThese(all, tickets) && i < |tickets| && tickets[i] < |all| == |all'|
    requires all' == all[tickets[i] := all'[tickets[i]]]
    ensures Backed(all', tickets, holds, i + 1) && OnlyThese(all', tickets)
  {
    assert tickets[i] in tickets;
  }

  /** What a resume came to: `StaleSnapshot` and `NoRoomForRestore` are the two offload errors. */
  datatype Resumption = Resumed | StaleSnapshot | NoRoomForRestore | NotResumable

  function RestoreAndResume(h: HostConfig, t: Tiered, k: nat, snap: Snap, suffix: seq<Token>, q: Params, copyFails: bool): (Tiered, Resumption)
    requires k < |t.s.reqs| && t.s.pool.bs >= 1
  {
    var (s1, ok, imported) := RestoreSnap(h, t, k, snap, copyFails);
    if !ok || s1.pool.bs == 0 || k >= |s1.reqs| then (t.(s := s1), NoRoomForRestore)
    else AfterRestore(h, t.(s := s1), k, snap, imported, suffix, q)
  }

  /** The restored request is resumed, or its table is released again. */
  function AfterRestore(h: HostConfig, t: Tiered, k: nat, snap: Snap, imported: nat, suffix: seq<Token>, q: Params): (Tiered, Resumption)
    requires k < |t.s.reqs| && t.s.pool.bs >= 1
  {
    match Resume(t.s, k, suffix, q.maxTokens, q.hold, q.policy, q.stops, q.ignoreEos)
    case None =>
      var r := t.s.reqs[k];
      (t.(s := SetReq(t.s, k, DecrefAll(t.s.pool, r.table),
                      r.(table := [], computed := 0, scheduled := 0, residency := OnCpu, snapshot := Some(snap.id)))), NotResumable)
    case Some(s') =>
      (t.(s := s', books := AddUse(h, t.books, snap, BlockBytes(h, imported), snap.valid, t.s.reqs[k].table)), Resumed)
  }

  predicate IsStale(t: Tiered, snap: Snap, r: Req) {
    snap.weights != t.weights || snap.epoch != t.s.pool.epoch || snap.bs != t.s.pool.bs || snap.tokens != r.tokens || r.table != []
  }

  /** `resume_request`, with the reason for a refusal. */
  function ResumeOutcome(h: HostConfig, t: Tiered, k: nat, suffix: seq<Token>, q: Params, copyFails: bool): (Tiered, Resumption)
    requires t.s.pool.bs >= 1
  {
    if k >= |t.s.reqs| then (t, NotResumable)
    else if t.s.reqs[k].residency != OnCpu then
      match Resume(t.s, k, suffix, q.maxTokens, q.hold, q.policy, q.stops, q.ignoreEos)
      case None => (t, NotResumable)
      case Some(s') => (t.(s := s'), Resumed)
    else FromHost(h, t, k, Find(t.books.snaps, k), suffix, q, copyFails)
  }

  function FromHost(h: HostConfig, t: Tiered, k: nat, found: Option<Snap>, suffix: seq<Token>, q: Params, copyFails: bool): (Tiered, Resumption)
    requires t.s.pool.bs >= 1 && k < |t.s.reqs|
  {
    if found.None? then (t, StaleSnapshot)
    else if IsStale(t, found.value, t.s.reqs[k]) then
      (t.(s := SetReq(t.s, k, t.s.pool, t.s.reqs[k].(residency := NoKv, snapshot := None)), books := Forget(h, t.books, k)), StaleSnapshot)
    else RestoreAndResume(h, t, k, found.value, suffix, q, copyFails)
  }

  /** Runs with host memory are stated about `ResumeTiered`, which only tells done from refused. */
  lemma ResumeOutcomeIs(h: HostConfig, t: Tiered, k: nat, suffix: seq<Token>, q: Params, copyFails: bool)
    requires t.s.pool.bs >= 1
    ensures var (t', why) := ResumeOutcome(h, t, k, suffix, q, copyFails);
      ResumeTiered(h, t, k, suffix, q, copyFails) == (t', if why == Resumed then Done else Rejected)
  {
    hide Resume, RestoreSnap, Forget, AddUse, Find, DecrefAll, BlockBytes;
  }

  class SessionOffload {
    const engine: EngineLoop.Engine
    const store: CpuKVStore
    const h: HostConfig
    const chunk: nat
    var books: Books
    var nextId: nat
    var weights: nat

    constructor (engine: EngineLoop.Engine, store: CpuKVStore, h: HostConfig, chunk: nat)
      requires engine.scheduler.Valid() && store.Valid() && store.maxBytes == h.maxBytes && store.snapshots == [] && AllClosed(store.tickets) && chunk >= 1
      requires SysInv(engine.net, engine.State()) && forall k :: 0 <= k < |engine.State().reqs| ==> engine.State().reqs[k].residency != OnCpu
      ensures Valid() && this.engine == engine && this.store == store && this.h == h
      ensures State() == Tiered(engine.State(), Books([], [], 0, 0, 0), 0, 0)
    {
      hide *;
      this.engine, this.store, this.h, this.chunk := engine, store, h, chunk;
      books, nextId, weights := Books([], [], 0, 0, 0), 0, 0;
      new;
      Opened();
    }

    lemma Opened()
      requires engine.scheduler.Valid() && store.Valid() && store.maxBytes == h.maxBytes && store.snapshots == [] && AllClosed(store.tickets) && chunk >= 1
      requires SysInv(engine.net, engine.State()) && forall k :: 0 <= k < |engine.State().reqs| ==> engine.State().reqs[k].residency != OnCpu
      requires books == Books([], [], 0, 0, 0) && nextId == 0 && weights == 0
      ensures Valid() && State() == Tiered(engine.State(), Books([], [], 0, 0, 0), 0, 0)
    {
      hide SysInv, States, BlockManager.State, Scheduler.State, TierInv, CpuKVStore.Valid;
      FreshTier(engine.net, h, engine.State());
    }

    function State(): Tiered
      reads this, engine.scheduler, engine.scheduler.reqs, engine.scheduler.manager, engine.scheduler.manager.cache, engine.scheduler.kv
    {
      Tiered(engine.State(), books, nextId, weights)
    }

    /** The parts fit together. */
    ghost predicate Sound()
      reads this, store, engine.scheduler
    {
      engine.scheduler.Valid() && store.Valid() && store.maxBytes == h.maxBytes && chunk >= 1 && Mirrored(h, books.snaps, store.snapshots)
    }

    /** Between operations nothing is reserved and the whole system is sound. */
    ghost predicate Valid()
      reads this, store, engine, engine.scheduler, engine.scheduler.reqs, engine.scheduler.manager, engine.scheduler.manager.cache, engine.scheduler.kv
    {
      Sound() && AllClosed(store.tickets) && TierInv(engine.net, h, State())
    }

    // ----- eviction -----

    /** The request keeps its history and goes back to a cold start. */
    method ForgetSnapshot(k: nat)
      requires engine.scheduler.Valid() && k < |engine.scheduler.reqs|
      modifies engine.scheduler.reqs[k]
      ensures engine.State() == SetReq(old(engine.State()), k, old(engine.State()).pool, EvictedReq(old(engine.State()).reqs[k]))
    {
      hide States, BlockManager.State;
      engine.scheduler.reqs[k].state := EvictedReq(engine.scheduler.reqs[k].state);
      engine.scheduler.OneChanged(k);
    }

    /** `evict_oldest_snapshot`. */
    method EvictOldestSnapshot()
      requires Sound() && books.snaps != []
      modifies this`books, store`snapshots, store`committed, store`pinned, engine.scheduler.reqs
      ensures Sound() && State() == EvictOldest(h, old(State()))
    {
      hide States, BlockManager.State, Bytes, CpuKVStore.Valid, Scheduler.State, Mirrored, EvictedReq;
      var snap := books.snaps[0];
      MirroredTail(h, books.snaps, store.snapshots);
      var _ := store.EvictOldest({});
      EvictedIs(h, State());
      books := DropSnap(h, books, snap);
      EngineSize();
      if snap.owner < |engine.scheduler.reqs| {
        ForgetSnapshot(snap.owner);
      }
    }

    lemma NothingReserved()
      requires Sound() && AllClosed(store.tickets)
      ensures store.reserved == 0
    {
      hide Mirrored, OpenBytes;
      HostStore.NoneOpen(store.tickets, false);
    }

    lemma StoreTotal()
      requires Sound()
      ensures store.committed == Stored(h, books.snaps) && store.maxBytes == h.maxBytes
    {
      hide Mirrored, OpenBytes;
      MirroredSum(h, books.snaps, store.snapshots);
    }

    // ----- saving -----

    /** An open reservation beside `before`, or the store too full for one. */
    ghost predicate Ticketed(before: seq<Ticket>, ticket: Option<nat>, id: nat, bytes: nat)
      reads this, store
    {
      && (ticket.Some? <==> Stored(h, books.snaps) + bytes <= h.maxBytes)
      && (ticket.None? ==> store.reserved == 0 && store.tickets == before)
      && (ticket.Some? ==> ticket.value == |before| && store.tickets == before + [Ticket(id, bytes, false, Open)] && store.reserved == bytes)
    }

    method TryReserve(id: nat, bytes: nat) returns (ticket: Option<nat>)
      requires Sound() && store.reserved == 0
      modifies store`tickets, store`listed, store`reserved, store`reservedPinned
      ensures Sound() && Ticketed(old(store.tickets), ticket, id, bytes)
    {
      hide Mirrored, CpuKVStore.Valid, Stored;
      StoreTotal();
      ticket := store.Reserve(id, bytes, false);
    }

    /** `reserve`, evicting the oldest snapshots for as long as it is refused. */
    method ReserveRoom(id: nat, bytes: nat) returns (ticket: Option<nat>)
      requires Sound() && store.reserved == 0
      modifies this`books, store, engine.scheduler.reqs
      ensures Sound() && State() == MakeRoom(h, old(State()), bytes) && Ticketed(old(store.tickets), ticket, id, bytes)
    {
      hide Mirrored, CpuKVStore.Valid, EvictOldest, Stored, State, States, BlockManager.State, Scheduler.State, MakeRoom;
      ticket := TryReserve(id, bytes);
      while ticket.None? && books.snaps != []
        invariant Sound() && MakeRoom(h, State(), bytes) == MakeRoom(h, old(State()), bytes) && Ticketed(old(store.tickets), ticket, id, bytes)
        decreases |books.snaps|
      {
        RoomUnfolds(h, State(), bytes);
        StateBooks();
        EvictOldestSnapshot();
        StateBooks();
        ticket := TryReserve(id, bytes);
      }
      RoomUnfolds(h, State(), bytes);
      StateBooks();
    }

    /** The copy, its commit, and only then the release of the source table. */
    method CommitSave(k: nat, id: nat, i: nat)
      requires Sound() && TierInv(engine.net, h, State()) && Savable(State(), k) && State().s.reqs[k].status == Paused
      requires forall x :: x in books.snaps ==> x.id < id
      requires i < |store.tickets| && store.tickets[i].id == id && store.tickets[i].state == Open && store.tickets[i].bytes == SaveBytes(h, State(), k)
      modifies this`books, store, engine.scheduler.manager, engine.scheduler.reqs
      ensures Sound() && State() == SaveAs(h, old(State()), k, id)
      ensures store.reserved == old(store.reserved) - old(store.tickets[i].bytes)
      ensures store.tickets == old(store.tickets)[i := old(store.tickets[i]).(state := Committed)]
    {
      hide Mirrored, CpuKVStore.Valid, States, BlockManager.State, Scheduler.State, DecrefAll, BlocksNeededFor, TierInv, Transfer.Exported, SnapsGood;
      ghost var t := State();
      SavableShape(engine.net, h, t, k);
      Parts();
      KthState(k);
      var req := engine.scheduler.reqs[k];
      var blocks := BlocksNeededFor(req.state.computed, engine.scheduler.manager.bs);
      var buffer := Transfer.ExportBlocks(engine.scheduler.kv.mem, req.state.table[..blocks], engine.scheduler.manager.bs, req.state.computed, chunk);
      MirroredId(h, books.snaps, store.snapshots, id);
      var ok := store.Commit(i);
      var snap := Snap(k, id, req.state.tokens, req.state.computed, engine.scheduler.manager.bs, weights, engine.scheduler.manager.epoch, buffer);
      MirroredAppend(h, books.snaps, old(store.snapshots), snap, HostSnapshot(id, store.tickets[i].bytes, store.tickets[i].pinned));
      books := AddSnap(h, books, snap);
      Unload(k, id);
    }

    lemma Parts()
      ensures var s, m := engine.State(), engine.scheduler.manager;
        && s.pool == m.State() && s.mem == engine.scheduler.kv.mem && s.pool.bs == m.bs && s.pool.epoch == m.epoch && s.pool.free == m.free
        && |s.reqs| == |engine.scheduler.reqs| && s.reqs == States(engine.scheduler.reqs)
    {
      hide States;
    }

    lemma KthState(k: nat)
      requires k < |engine.State().reqs|
      ensures k < |engine.scheduler.reqs| && engine.State().reqs[k] == engine.scheduler.reqs[k].state
    {
    }

    /** The request's device table is released and its bookkeeping cleared. */
    method Unload(k: nat, id: nat)
      requires engine.scheduler.Valid() && k < |engine.scheduler.reqs|
      modifies engine.scheduler.manager, engine.scheduler.reqs[k]
      ensures var s := old(engine.State()); var r := s.reqs[k];
        engine.State() == SetReq(s, k, DecrefAll(s.pool, r.table), OffDevice(r, OnCpu, Some(id)).(epoch := s.pool.epoch))
    {
      hide States, BlockManager.State, DecrefAll;
      KthState(k);
      Parts();
      engine.scheduler.manager.FreeTable(engine.scheduler.reqs[k]);
      engine.scheduler.reqs[k].state := OffDevice(engine.scheduler.reqs[k].state, OnCpu, Some(id)).(epoch := engine.scheduler.manager.epoch);
      engine.scheduler.OneChanged(k);
    }

    /** A reservation is given back. */
    method AbortTicket(i: nat)
      requires Sound() && i < |store.tickets| && store.tickets[i].state == Open
      modifies store`tickets, store`listed, store`reserved, store`reservedPinned
      ensures Sound() && store.reserved == old(store.reserved) - old(store.tickets[i].bytes)
      ensures store.tickets == old(store.tickets)[i := old(store.tickets[i]).(state := Aborted)]
    {
      hide Mirrored, CpuKVStore.Valid;
      var _ := store.Abort(i);
    }

    /** The registered snapshot of a request, if any. */
    method FindSnapshot(k: nat) returns (snap: Option<Snap>)
      ensures snap == Find(books.snaps, k)
    {
      var i := 0;
      while i < |books.snaps| && books.snaps[i].owner != k
        invariant 0 <= i <= |books.snaps| && Find(books.snaps[i..], k) == Find(books.snaps, k)
      {
        assert books.snaps[i..][1..] == books.snaps[i + 1..];
        i := i + 1;
      }
      snap := if i < |books.snaps| then Some(books.snaps[i]) else None;
    }

    /** `save` of a request that has something to copy: room first, then the copy. */
    method SaveFresh(k: nat, copyFails: bool) returns (result: SaveResult)
      requires Valid() && k < |State().s.reqs| && State().s.reqs[k].status == Paused && State().s.pool.bs >= 1
      requires !(State().s.reqs[k].residency == OnCpu && State().s.reqs[k].snapshot.Some?)
      modifies this`books, this`nextId, store, engine.scheduler.manager, engine.scheduler.reqs
      ensures Sound() && AllClosed(store.tickets) && (State(), result) == Offload.Save(h, old(State()), k, copyFails)
    {
      hide Mirrored, CpuKVStore.Valid, States, BlockManager.State, Scheduler.State, TierInv, BlocksNeededFor, MakeRoom, SaveAs, Stored, Offload.Save, BlockBytes, Savable;
      Parts();
      KthState(k);
      NothingReserved();
      SaveSteps(engine.net, h, State(), k, copyFails);
      var id, bytes := nextId, BlockBytes(h, BlocksNeededFor(engine.scheduler.reqs[k].state.computed, engine.scheduler.manager.bs));
      nextId := nextId + 1;
      if bytes > h.maxBytes {
        return NoRoom;
      }
      var ticket := ReserveRoom(id, bytes);
      if copyFails {
        AbortTicket(ticket.value);
        return CopyFailed;
      }
      Parts();
      CommitSave(k, id, ticket.value);
      result := Saved;
    }

    /** `save`. */
    method Save(k: nat, copyFails: bool) returns (result: SaveResult)
      requires Valid() && State().s.pool.bs >= 1
      modifies this`books, this`nextId, store, engine.scheduler.manager, engine.scheduler.reqs
      ensures Valid() && (State(), result) == Offload.Save(h, old(State()), k, copyFails)
    {
      hide Mirrored, CpuKVStore.Valid, States, BlockManager.State, Scheduler.State, TierInv, Offload.Save, Find, AllClosed;
      SaveInv(engine.net, h, State(), k, copyFails);
      SaveSkips(h, State(), k, copyFails);
      Parts();
      if k >= |engine.scheduler.reqs| || engine.scheduler.reqs[k].state.status != Paused {
        return NotPaused;
      }
      KthState(k);
      if engine.scheduler.reqs[k].state.residency == OnCpu && engine.scheduler.reqs[k].state.snapshot.Some? {
        var found := FindSnapshot(k);
        return if found.Some? then Saved else Stale;
      }
      result := SaveFresh(k, copyFails);
    }

    // ----- a group -----

    /** `_metadata` for every member of a group; each description uses up an id. */
    method Describe(group: seq<nat>) returns (holds: Option<seq<Hold>>)
      requires TierInv(engine.net, h, State()) && State().s.pool.bs >= 1
      modifies this`nextId
      ensures (nextId, holds) == Described(h, old(State()), group, old(nextId))
    {
      hide TierInv, States, BlockManager.State, Scheduler.State, BlocksNeededFor, Savable, Described;
      ghost var t := State();
      var all: seq<Hold> := [];
      Parts();
      assert group[0..] == group;
      DescribedFrom(h, t, group, nextId);
      var i := 0;
      while i < |group|
        invariant 0 <= i <= |group| && State() == t.(nextId := nextId)
        invariant Described(h, t, group, old(nextId)) == JoinHolds(all, Described(h, t, group[i..], nextId))
      {
        DescribedSteps(h, t, group, i, nextId, all);
        SavableHere(engine.net, h, t, group[i]);
        if group[i] >= |engine.scheduler.reqs| {
          return None;
        }
        KthState(group[i]);
        var r := engine.scheduler.reqs[group[i]].state;
        if r.computed > |r.tokens| || BlocksNeededFor(r.computed, engine.scheduler.manager.bs) > |r.table| {
          return None;
        }
        all := all + [Hold(nextId, BlockBytes(h, BlocksNeededFor(r.computed, engine.scheduler.manager.bs)))];
        nextId := nextId + 1;
        i := i + 1;
      }
      DescribedEnd(h, t, group, i, nextId, all);
      holds := Some(all);
    }

    method ReserveAll(holds: seq<Hold>) returns (tickets: seq<nat>)
      requires Sound() && AllClosed(store.tickets) && Stored(h, books.snaps) + Total(holds) <= h.maxBytes
      modifies store`tickets, store`listed, store`reserved, store`reservedPinned
      ensures Sound() && Backed(store.tickets, tickets, holds, 0) && OnlyThese(store.tickets, tickets) && store.reserved == Total(holds)
    {
      hide Mirrored, CpuKVStore.Valid, CpuKVStore.State, HostStore.After, Stored;
      NothingReserved();
      StoreTotal();
      tickets := [];
      TotalUpto(holds, 0);
      var i := 0;
      while i < |holds|
        invariant 0 <= i <= |holds| && Sound() && Backed(store.tickets, tickets, holds[..i], 0) && OnlyThese(store.tickets, tickets) && store.reserved == Total(holds[..i])
        invariant forall j :: 0 <= j < |tickets| ==> tickets[j] < |store.tickets|
      {
        TotalUpto(holds, i);
        StoreTotal();
        var ticket := store.Reserve(holds[i].id, holds[i].bytes, false);
        tickets := tickets + [ticket.value];
        i := i + 1;
      }
      assert holds[..i] == holds;
    }

    /** Evicts the oldest snapshots until `bytes` more fit. */
    method EvictFor(bytes: nat)
      requires Sound() && store.reserved == 0
      modifies this`books, store`snapshots, store`committed, store`pinned, engine.scheduler.reqs
      ensures Sound() && State() == MakeRoom(h, old(State()), bytes)
    {
      hide Mirrored, CpuKVStore.Valid, EvictOldest, Stored, State, MakeRoom;
      StoreTotal();
      while books.snaps != [] && store.committed + store.reserved + bytes > h.maxBytes
        invariant Sound() && MakeRoom(h, State(), bytes) == MakeRoom(h, old(State()), bytes) && store.committed == Stored(h, books.snaps)
        decreases |books.snaps|
      {
        RoomUnfolds(h, State(), bytes);
        StateBooks();
        EvictOldestSnapshot();
        StateBooks();
        StoreTotal();
      }
      RoomUnfolds(h, State(), bytes);
      StateBooks();
    }

    /** `prepare_group`. */
    method PrepareGroup(group: seq<nat>) returns (holds: Option<seq<Hold>>, tickets: seq<nat>)
      requires Valid() && State().s.pool.bs >= 1
      modifies this`books, this`nextId, store, engine.scheduler.reqs
      ensures Sound() && TierInv(engine.net, h, State()) && (State(), holds) == Prepare(h, old(State()), group)
      ensures holds.None? ==> AllClosed(store.tickets)
      ensures holds.Some? ==> Backed(store.tickets, tickets, holds.value, 0) && OnlyThese(store.tickets, tickets) && store.reserved == Total(holds.value)
    {
      hide Mirrored, CpuKVStore.Valid, States, BlockManager.State, Scheduler.State, TierInv, Described, MakeRoom, Stored, Total, AllEvicted, Booked, Backed, OnlyThese, AllClosed;
      PreparedBooked(engine.net, h, State(), group);
      PreparedRoom(engine.net, h, State(), group);
      DescribedMeaning(h, State(), group, nextId);
      NothingReserved();
      tickets := [];
      holds := Describe(group);
      if holds.None? || Total(holds.value) > h.maxBytes {
        holds := None;
        return;
      }
      EvictFor(Total(holds.value));
      tickets := ReserveAll(holds.value);
    }

    /** `close_group`: whatever is still open is given back. */
    method CloseGroup(tickets: seq<nat>)
      requires Sound() && OnlyThese(store.tickets, tickets)
      modifies store`tickets, store`listed, store`reserved, store`reservedPinned
      ensures Sound() && AllClosed(store.tickets)
    {
      hide Mirrored, CpuKVStore.Valid;
      var i := 0;
      while i < |tickets|
        invariant 0 <= i <= |tickets| && Sound() && OnlyThese(store.tickets, tickets[i..])
      {
        if tickets[i] < |store.tickets| && store.tickets[tickets[i]].state == Open {
          AbortTicket(tickets[i]);
        }
        assert forall j: nat :: j in tickets[i..] ==> j == tickets[i] || j in tickets[i + 1..];
        i := i + 1;
      }
    }

    /** `reclaim_cached_blocks`. */
    method ReclaimCached(minFree: nat)
      requires engine.scheduler.Valid()
      modifies engine.scheduler.manager, engine.scheduler.manager.cache
      ensures State() == Groups.ReclaimCached(old(State()), minFree)
    {
      hide States, EvictUnused;
      engine.scheduler.manager.Evict(minFree - |engine.scheduler.manager.free|);
    }

    /** What is needed to save a member under its reservation. */
    ghost predicate MemberReady(k: nat, hold: Hold, ticket: nat)
      reads this, store, engine, engine.scheduler, engine.scheduler.reqs, engine.scheduler.manager, engine.scheduler.manager.cache, engine.scheduler.kv
    {
      && Sound() && TierInv(engine.net, h, State()) && State().s.pool.bs >= 1 && k < |State().s.reqs|
      && ticket < |store.tickets| && store.tickets[ticket] == Ticket(hold.id, hold.bytes, false, Open) && hold.bytes <= store.reserved
      && (State().s.reqs[k].residency != OnCpu ==> hold.bytes == SaveBytes(h, State(), k)) && forall x :: x in books.snaps ==> x.id < hold.id
    }

    /** `save` of a member; its reservation is used up unless it was on the host already. */
    method SaveMember(k: nat, hold: Hold, ticket: nat, copyFails: bool, ghost committed: seq<nat>) returns (ok: bool)
      requires MemberReady(k, hold, ticket)
      modifies this`books, this`nextId, store, engine.scheduler.manager, engine.scheduler.reqs
      ensures Sound()
      ensures Group(State(), store.reserved, if ok then committed + [k] else committed, !ok)
           == SaveHeld(h, Group(old(State()), old(store.reserved), committed, false), k, hold, copyFails)
      ensures |store.tickets| == |old(store.tickets)| && ticket < |store.tickets|
      ensures store.tickets == old(store.tickets)[ticket := store.tickets[ticket]]
    {
      hide Mirrored, CpuKVStore.Valid, States, BlockManager.State, Scheduler.State, TierInv, BlocksNeededFor, SaveAs, Stored, Find, Savable, SaveBytes;
      ghost var t := State();
      Parts();
      KthState(k);
      ResidentIff(engine.net, h, t, k);
      SavableHere(engine.net, h, t, k);
      var r := engine.scheduler.reqs[k].state;
      if r.status != Paused {
        return false;
      }
      if r.residency == OnCpu && r.snapshot.Some? {
        var found := FindSnapshot(k);
        return found.Some?;
      }
      nextId := nextId + 1;
      SavableNext(t);
      NextIdInv(engine.net, h, t);
      if copyFails {
        AbortTicket(ticket);
        return false;
      }
      SaveBytesNext(h, t, k);
      CommitSave(k, hold.id, ticket);
      ok := true;
    }

    lemma ReadyNext(group: seq<nat>, holds: seq<Hold>, tickets: seq<nat>, i: nat, g: Group)
      requires Sound() && TierInv(engine.net, h, State()) && g == Group(State(), store.reserved, g.committed, false)
      requires i < |group| && i <= |holds| && Booked(h, g, group[i..], holds[i..]) && Backed(store.tickets, tickets, holds, i)
      ensures i < |holds| && i < |tickets| && MemberReady(group[i], holds[i], tickets[i])
      ensures group[i..] != [] && group[i..][0] == group[i] && holds[i..][0] == holds[i] && group[i..][1..] == group[i + 1..] && holds[i..][1..] == holds[i + 1..]
    {
      hide Mirrored, CpuKVStore.Valid, States, BlockManager.State, Scheduler.State, State, TierInv, Booked, SaveBytes;
      BookedHead(h, g, group[i..], holds[i..]);
      StateBooks();
    }

    /** The next member, and the cached blocks that its release made idle. */
    method NextMember(group: seq<nat>, holds: seq<Hold>, tickets: seq<nat>, i: nat, minFree: nat, copyFails: bool, ghost committed: seq<nat>) returns (ok: bool)
      requires Sound() && TierInv(engine.net, h, State()) && Backed(store.tickets, tickets, holds, i) && OnlyThese(store.tickets, tickets)
      requires i < |group| && i <= |holds| && Booked(h, Group(State(), store.reserved, committed, false), group[i..], holds[i..])
      modifies this`books, this`nextId, store, engine.scheduler.manager, engine.scheduler.manager.cache, engine.scheduler.reqs
      ensures i < |holds| && Sound() && Backed(store.tickets, tickets, holds, i + 1) && OnlyThese(store.tickets, tickets)
      ensures var g1 := SaveHeld(h, Group(old(State()), old(store.reserved), committed, false), group[i], holds[i], copyFails);
        && ok == !g1.failed
        && Group(State(), store.reserved, if ok then committed + [group[i]] else committed, !ok) == if ok then g1.(t := Groups.ReclaimCached(g1.t, minFree)) else g1
      ensures ok ==> TierInv(engine.net, h, State()) && Booked(h, Group(State(), store.reserved, committed + [group[i]], false), group[i + 1..], holds[i + 1..])
    {
      hide Mirrored, CpuKVStore.Valid, States, BlockManager.State, Scheduler.State, State, TierInv, Booked, SaveHeld, Backed, OnlyThese, Groups.ReclaimCached;
      ghost var g, before := Group(State(), store.reserved, committed, false), store.tickets;
      ReadyNext(group, holds, tickets, i, g);
      SaveHeldInv(engine.net, h, g, group[i..], holds[i..], copyFails, 0);
      BackedSize(before, tickets, holds, i);
      ok := SaveMember(group[i], holds[i], tickets[i], copyFails, committed);
      TicketsLater(before, store.tickets, tickets, holds, i);
      if ok {
        ghost var g1 := Group(State(), store.reserved, committed + [group[i]], false);
        CachedReclaimed(engine.net, h, State(), minFree);
        KeptSize(State(), Groups.ReclaimCached(State(), minFree));
        ReclaimCached(minFree);
        BookedSame(h, g1, Group(State(), store.reserved, committed + [group[i]], false), group[i + 1..], holds[i + 1..]);
      }
    }

    /** The members in order, each under its own reservation. */
    method SaveAllMembers(group: seq<nat>, holds: seq<Hold>, tickets: seq<nat>, minFree: nat, fails: set<nat>) returns (committed: seq<nat>, failed: bool)
      requires Sound() && TierInv(engine.net, h, State()) && Booked(h, Group(State(), store.reserved, [], false), group, holds)
      requires Backed(store.tickets, tickets, holds, 0) && OnlyThese(store.tickets, tickets)
      modifies this`books, this`nextId, store, engine.scheduler.manager, engine.scheduler.manager.cache, engine.scheduler.reqs
      ensures Sound() && OnlyThese(store.tickets, tickets)
      ensures Group(State(), store.reserved, committed, failed)
           == SaveMembers(h, Group(old(State()), old(store.reserved), [], false), group, holds, minFree, fails)
    {
      hide Sound, States, BlockManager.State, Scheduler.State, State, TierInv, Booked, SaveHeld, SaveMembers, Backed, OnlyThese, Groups.ReclaimCached;
      ghost var g0 := Group(State(), store.reserved, [], false);
      committed, failed := [], false;
      assert group[0..] == group && holds[0..] == holds;
      BookedSizes(h, g0, group, holds);
      var i := 0;
      while i < |group|
        invariant 0 <= i <= |group| == |holds| && Sound() && TierInv(engine.net, h, State()) && !failed
        invariant Booked(h, Group(State(), store.reserved, committed, false), group[i..], holds[i..])
        invariant Backed(store.tickets, tickets, holds, i) && OnlyThese(store.tickets, tickets)
        invariant SaveMembers(h, Group(State(), store.reserved, committed, false), group[i..], holds[i..], minFree, fails) == SaveMembers(h, g0, group, holds, minFree, fails)
      {
        MembersUnfold(h, Group(State(), store.reserved, committed, false), group, holds, i, minFree, fails);
        var ok := NextMember(group, holds, tickets, i, minFree, group[i] in fails, committed);
        if !ok {
          failed := true;
          return;
        }
        committed := committed + [group[i]];
        StateBooks();
        Parts();
        if |engine.scheduler.manager.free| >= minFree {
          return;
        }
        i := i + 1;
      }
      MembersEnd(h, Group(State(), store.reserved, committed, false), group[i..], holds[i..], minFree, fails);
    }

    /** `reclaim_group`. */
    method ReclaimGroup(group: seq<nat>, minFree: nat, fails: set<nat>) returns (committed: seq<nat>, failed: bool)
      requires Valid() && State().s.pool.bs >= 1
      modifies this`books, this`nextId, store, engine.scheduler.manager, engine.scheduler.manager.cache, engine.scheduler.reqs
      ensures Valid() && Group(State(), 0, committed, failed) == Groups.ReclaimGroup(h, old(State()), group, minFree, fails)
    {
      hide Mirrored, CpuKVStore.Valid, States, BlockManager.State, Scheduler.State, State, TierInv, Booked, SaveMembers, Prepare, Backed, OnlyThese, AllClosed, GroupOutcome, Kept, NewSnaps, AllEvicted;
      PreparedBooked(engine.net, h, State(), group);
      ReclaimGroupInv(engine.net, h, State(), group, minFree, fails);
      committed, failed := [], true;
      var holds, tickets := PrepareGroup(group);
      if holds.None? {
        return;
      }
      committed, failed := SaveAllMembers(group, holds.value, tickets, minFree, fails);
      CloseGroup(tickets);
    }

    // ----- leaving -----

    /** A snapshot leaves the store. */
    method DeleteSnapshot(snap: Snap)
      requires Sound() && Ordered(books.snaps) && snap in books.snaps
      modifies store`snapshots, store`committed, store`pinned
      ensures store.Valid() && Mirrored(h, Without(books.snaps, snap), store.snapshots)
    {
      hide Mirrored, CpuKVStore.Valid, Ordered;
      ghost var kept := store.snapshots;
      MirroredId(h, books.snaps, kept, snap.id);
      var _ := store.Delete(snap.id);
      ghost var i: nat :| i < |kept| && kept[i].id == snap.id && store.snapshots == RemoveAt(kept, i);
      MirroredWithout(h, books.snaps, kept, snap, i);
    }

    /** `remove`. */
    method Remove(k: nat)
      requires Sound() && Ordered(books.snaps)
      modifies this`books, store`snapshots, store`committed, store`pinned
      ensures Sound() && books == Forget(h, old(books), k)
    {
      hide Mirrored, CpuKVStore.Valid, Ordered, Find;
      T.DropUseSnaps(books, k);
      FindMeaning(books.snaps, k);
      var found := FindSnapshot(k);
      if found.Some? {
        DeleteSnapshot(found.value);
      }
      books := DropUse(books, k);
      if found.Some? {
        books := DropSnap(h, books, found.value);
      }
    }

    /** `finish_request`. */
    method FinishRequest(k: nat)
      requires Valid()
      modifies this`books, store`snapshots, store`committed, store`pinned
      modifies engine.scheduler`waiting, engine.scheduler`running, engine.scheduler.manager, engine.scheduler.reqs
      ensures Valid() && State() == T.FinishTiered(h, old(State()), k)
    {
      hide Mirrored, CpuKVStore.Valid, States, BlockManager.State, Scheduler.State, TierInv, Release, Forget, Ordered;
      Parts();
      T.FinishTieredInv(engine.net, h, State(), k);
      TierOrdered(engine.net, h, State());
      if k >= |engine.scheduler.reqs| {
        return;
      }
      KthState(k);
      if engine.scheduler.reqs[k].state.status == Finished {
        return;
      }
      Remove(k);
      engine.scheduler.ReleaseRequest(k);
    }

    /** A parked session gives up its KV wherever it is; its history stays. */
    method DropKv(k: nat)
      requires Valid() && k < |State().s.reqs| && State().s.reqs[k].status == Paused
      modifies this`books, store`snapshots, store`committed, store`pinned, engine.scheduler.manager, engine.scheduler.reqs
      ensures Valid() && State() == DropTiered(h, old(State()), k)
    {
      hide Mirrored, CpuKVStore.Valid, States, BlockManager.State, Scheduler.State, TierInv, DecrefAll, Forget, Ordered;
      Parts();
      KthState(k);
      DropTieredInv(engine.net, h, State(), k);
      TierOrdered(engine.net, h, State());
      Remove(k);
      ClearKv(k);
    }

    method ClearKv(k: nat)
      requires engine.scheduler.Valid() && k < |engine.scheduler.reqs|
      modifies engine.scheduler.manager, engine.scheduler.reqs[k]
      ensures var s := old(engine.State()); engine.State() == SetReq(s, k, DecrefAll(s.pool, s.reqs[k].table), Cold(s.reqs[k].(table := [])))
    {
      hide States, BlockManager.State, DecrefAll;
      KthState(k);
      engine.scheduler.manager.FreeTable(engine.scheduler.reqs[k]);
      engine.scheduler.reqs[k].state := Cold(engine.scheduler.reqs[k].state);
      engine.scheduler.OneChanged(k);
    }

    // ----- steps -----

    /** `mark_used` for the rows that the step ran. */
    method MarkRows(rows: seq<Row>)
      requires Sound()
      modifies this`books
      ensures Sound() && books == MarkedRows(old(books), rows)
    {
      hide Mirrored, CpuKVStore.Valid, MarkUsed;
      assert rows[0..] == rows;
      var i := 0;
      while i < |rows|
        invariant 0 <= i <= |rows| && Sound() && MarkedRows(books, rows[i..]) == MarkedRows(old(books), rows)
      {
        assert rows[i..][1..] == rows[i + 1..];
        MarkUsedSnaps(books, rows[i].id, rows[i].req);
        books := MarkUsed(books, rows[i].id, rows[i].req);
        i := i + 1;
      }
    }

    /** `step`, with the restores it proves useful or wasted. */
    method Step(propose: Proposer) returns (ok: bool)
      requires Valid()
      modifies this`books, engine`lastEmitted, engine`lastRun
      modifies engine.scheduler`waiting, engine.scheduler`running, engine.scheduler.manager, engine.scheduler.manager.cache, engine.scheduler.kv, engine.scheduler.reqs
      ensures Valid()
      ensures T.StepTiered(engine.net, engine.scheduler.cfg, h, propose, old(State())) == (State(), if ok then Emitted(engine.lastEmitted) else Rejected)
      ensures E.PagedStep(engine.net, engine.scheduler.cfg, propose, old(engine.State()))
           == if ok then E.Stepped(engine.State(), engine.lastEmitted) else E.Refused(engine.State())
    {
      hide Mirrored, CpuKVStore.Valid, States, BlockManager.State, Scheduler.State, TierInv, SysInv, T.StepTiered, E.PagedStep, E.RefStep, StepRows, MarkedRows;
      ghost var t := State();
      TierSys(engine.net, h, t);
      T.StepTieredInv(engine.net, engine.scheduler.cfg, h, propose, t);
      StepIs(engine.net, engine.scheduler.cfg, h, propose, t);
      ok := engine.Step(propose);
      MarkRows(engine.lastRun);
    }

    // ----- admission -----

    /** `add_request`. */
    method AddRequest(ids: seq<Token>, q: Params) returns (id: Option<nat>)
      requires Valid()
      modifies engine.scheduler`reqs, engine.scheduler`waiting, engine.scheduler.manager, engine.scheduler.manager.cache
      ensures Valid() && State() == old(State()).(s := HostOp(old(engine.State()), Add(ids, q)).0)
      ensures id.Some? <==> HostOp(old(engine.State()), Add(ids, q)).1 == Done
      ensures id.Some? ==> id.value == |old(engine.State()).reqs|
    {
      hide Mirrored, CpuKVStore.Valid, States, BlockManager.State, Scheduler.State, TierInv, SysInv, System.AddRequest;
      TierSys(engine.net, h, State());
      T.SysSize(engine.net, engine.State());
      T.AddTieredInv(engine.net, h, State(), ids, q);
      Parts();
      if ids == [] || q.maxTokens < 1 {
        return None;
      }
      var req := new Request(ids, q.maxTokens, q.minTokens, q.ignoreEos, q.stops, q.hold, q.policy);
      var k := |engine.scheduler.reqs|;
      var ok := engine.scheduler.AddNew(req);
      id := if ok then Some(k) else None;
    }

    /** Writes back a restored state; only the pool's contents and request `k` differ. */
    method Install(s: Sys, k: nat)
      requires engine.scheduler.Valid() && k < |engine.scheduler.reqs|
      requires SameFrame(engine.State().pool, s.pool) && s.waiting == engine.State().waiting && s.running == engine.State().running
      requires |s.reqs| == |engine.State().reqs| && forall j :: 0 <= j < |s.reqs| && j != k ==> s.reqs[j] == engine.State().reqs[j]
      modifies engine.scheduler.manager`free, engine.scheduler.manager`ref, engine.scheduler.manager.cache, engine.scheduler.kv, engine.scheduler.reqs[k]
      ensures engine.State() == s
    {
      hide States;
      Parts();
      engine.scheduler.manager.free, engine.scheduler.manager.ref := s.pool.free, s.pool.ref;
      engine.scheduler.manager.cache.index, engine.scheduler.manager.cache.lru := s.pool.cache.index, s.pool.cache.lru;
      engine.scheduler.kv.mem := s.mem;
      engine.scheduler.reqs[k].state := s.reqs[k];
      engine.scheduler.OneChanged(k);
    }

    /** `begin_restore` of a registered snapshot that is not stale. */
    method BeginRestore(k: nat, snap: Snap, copyFails: bool) returns (ok: bool, imported: nat)
      requires engine.scheduler.Valid() && k < |State().s.reqs| && State().s.pool.bs >= 1
      modifies engine.scheduler.manager`free, engine.scheduler.manager`ref, engine.scheduler.manager.cache, engine.scheduler.kv, engine.scheduler.reqs
      ensures (engine.State(), ok, imported) == RestoreSnap(h, old(State()), k, snap, copyFails)
      ensures SameFrame(old(engine.State()).pool, engine.State().pool)
    {
      hide States, BlockManager.State, Scheduler.State, RestoreSnap, SameFrame;
      Parts();
      T.RestoreFrame(h, State(), k, snap, copyFails);
      A.RestoreOthers(h, State(), k, snap, copyFails);
      RestoreQueues(h, State(), k, snap, copyFails);
      var (s, done, n) := RestoreSnap(h, State(), k, snap, copyFails);
      Install(s, k);
      ok, imported := done, n;
    }

    /** The snapshot's bytes now wait to be used. */
    method CommitRestore(snap: Snap, imported: nat, table: seq<nat>)
      requires Sound() && Ordered(books.snaps) && snap in books.snaps
      modifies this`books, store`snapshots, store`committed, store`pinned
      ensures Sound() && books == AddUse(h, old(books), snap, BlockBytes(h, imported), snap.valid, table)
    {
      hide Mirrored, CpuKVStore.Valid, Ordered, BlockBytes;
      DeleteSnapshot(snap);
      books := AddUse(h, books, snap, BlockBytes(h, imported), snap.valid, table);
      A.AddUseSnaps(h, old(books), snap);
    }

    /** `rollback_restore`: the restored table is released; the snapshot still stands. */
    method RollbackRestore(k: nat, snap: Snap)
      requires engine.scheduler.Valid() && k < |engine.scheduler.reqs|
      modifies engine.scheduler.manager, engine.scheduler.reqs[k]
      ensures var s := old(engine.State()); var r := s.reqs[k];
        engine.State() == SetReq(s, k, DecrefAll(s.pool, r.table),
                                 r.(table := [], computed := 0, scheduled := 0, residency := OnCpu, snapshot := Some(snap.id)))
    {
      hide States, BlockManager.State, DecrefAll;
      KthState(k);
      var req := engine.scheduler.reqs[k];
      engine.scheduler.manager.FreeTable(req);
      req.state := req.state.(computed := 0, scheduled := 0, residency := OnCpu, snapshot := Some(snap.id));
      engine.scheduler.OneChanged(k);
    }

    method ContinueRequest(k: nat, suffix: seq<Token>, q: Params) returns (ok: bool)
      requires engine.scheduler.Valid() && State().s.pool.bs >= 1
      modifies engine.scheduler`waiting, engine.scheduler.reqs
      ensures engine.scheduler.Valid()
      ensures match System.Resume(old(engine.State()), k, suffix, q.maxTokens, q.hold, q.policy, q.stops, q.ignoreEos)
        case None => !ok && engine.State() == old(engine.State())
        case Some(s) => ok && engine.State() == s
    {
      hide States, BlockManager.State, Scheduler.State, System.Resume;
      Parts();
      ok := engine.scheduler.ResumeRequest(k, suffix, q.maxTokens, q.hold, q.policy, q.stops, q.ignoreEos);
    }

    /** `resume` of a restored request, and then `commit_restore` or `rollback_restore`. */
    method ResumeRestored(k: nat, snap: Snap, imported: nat, suffix: seq<Token>, q: Params) returns (outcome: Resumption)
      requires Sound() && Ordered(books.snaps) && snap in books.snaps && k < |State().s.reqs| && State().s.pool.bs >= 1
      modifies this`books, store`snapshots, store`committed, store`pinned
      modifies engine.scheduler`waiting, engine.scheduler.manager, engine.scheduler.reqs
      ensures Sound() && (State(), outcome) == AfterRestore(h, old(State()), k, snap, imported, suffix, q)
    {
      hide Mirrored, CpuKVStore.Valid, States, BlockManager.State, Scheduler.State, System.Resume, DecrefAll, AddUse, Ordered, BlockBytes;
      Parts();
      KthState(k);
      var table := engine.scheduler.reqs[k].state.table;
      var continued := ContinueRequest(k, suffix, q);
      if !continued {
        Parts();
        RollbackRestore(k, snap);
        return NotResumable;
      }
      CommitRestore(snap, imported, table);
      outcome := Resumed;
    }

    /** A resume whose KV is in host memory, the snapshot being good. */
    method ResumeFromHost(k: nat, snap: Snap, suffix: seq<Token>, q: Params, copyFails: bool) returns (outcome: Resumption)
      requires Sound() && Ordered(books.snaps) && snap in books.snaps && k < |State().s.reqs| && State().s.pool.bs >= 1
      modifies this`books, store`snapshots, store`committed, store`pinned
      modifies engine.scheduler`waiting, engine.scheduler.manager, engine.scheduler.manager.cache, engine.scheduler.kv, engine.scheduler.reqs
      ensures Sound() && (State(), outcome) == RestoreAndResume(h, old(State()), k, snap, suffix, q, copyFails)
    {
      hide Mirrored, CpuKVStore.Valid, States, BlockManager.State, Scheduler.State, AfterRestore, RestoreSnap, Ordered;
      ghost var t := State();
      T.RestoreFrame(h, t, k, snap, copyFails);
      Parts();
      var ok, imported := BeginRestore(k, snap, copyFails);
      Parts();
      if !ok {
        return NoRoomForRestore;
      }
      outcome := ResumeRestored(k, snap, imported, suffix, q);
    }

    /** `begin_restore` and what follows it, the request's KV being in host memory. */
    method ResumeOnHost(k: nat, suffix: seq<Token>, q: Params, copyFails: bool) returns (outcome: Resumption)
      requires Sound() && Ordered(books.snaps) && k < |State().s.reqs| && State().s.pool.bs >= 1
      modifies this`books, store`snapshots, store`committed, store`pinned
      modifies engine.scheduler`waiting, engine.scheduler.manager, engine.scheduler.manager.cache, engine.scheduler.kv, engine.scheduler.reqs
      ensures Sound() && (State(), outcome) == FromHost(h, old(State()), k, Find(old(books).snaps, k), suffix, q, copyFails)
    {
      hide Mirrored, CpuKVStore.Valid, States, BlockManager.State, Scheduler.State, RestoreAndResume, Forget, Ordered, Find;
      var found := FindSnapshot(k);
      FindMeaning(books.snaps, k);
      if found.None? {
        return StaleSnapshot;
      }
      Parts();
      KthState(k);
      StateBooks();
      var snap, m, r := found.value, engine.scheduler.manager, engine.scheduler.reqs[k].state;
      if snap.weights != weights || snap.epoch != m.epoch || snap.bs != m.bs || snap.tokens != r.tokens || r.table != [] {
        Remove(k);
        MarkStale(k);
        return StaleSnapshot;
      }
      outcome := ResumeFromHost(k, snap, suffix, q, copyFails);
    }

    /** `resume_request`. */
    method Resume(k: nat, suffix: seq<Token>, q: Params, copyFails: bool) returns (outcome: Resumption)
      requires Valid() && State().s.pool.bs >= 1
      modifies this`books, store`snapshots, store`committed, store`pinned
      modifies engine.scheduler`waiting, engine.scheduler.manager, engine.scheduler.manager.cache, engine.scheduler.kv, engine.scheduler.reqs
      ensures Valid() && (State(), outcome) == ResumeOutcome(h, old(State()), k, suffix, q, copyFails)
    {
      hide Mirrored, CpuKVStore.Valid, States, BlockManager.State, Scheduler.State, TierInv, System.Resume, FromHost, Ordered, ResumeTiered, Find, AllClosed;
      ghost var t := State();
      ResumeTieredInv(engine.net, h, t, k, suffix, q, copyFails);
      ResumeOutcomeIs(h, t, k, suffix, q, copyFails);
      TierOrdered(engine.net, h, t);
      Parts();
      StateBooks();
      if k >= |engine.scheduler.reqs| {
        return NotResumable;
      }
      KthState(k);
      if engine.scheduler.reqs[k].state.residency != OnCpu {
        var ok := ContinueRequest(k, suffix, q);
        return if ok then Resumed else NotResumable;
      }
      outcome := ResumeOnHost(k, suffix, q, copyFails);
    }

    /** `_discard_stale`. */
    method MarkStale(k: nat)
      requires engine.scheduler.Valid() && k < |engine.scheduler.reqs|
      modifies engine.scheduler.reqs[k]
      ensures var s := old(engine.State()); engine.State() == SetReq(s, k, s.pool, s.reqs[k].(residency := NoKv, snapshot := None))
    {
      hide States, BlockManager.State;
      KthState(k);
      engine.scheduler.reqs[k].state := engine.scheduler.reqs[k].state.(residency := NoKv, snapshot := None);
      engine.scheduler.OneChanged(k);
    }

    lemma StateBooks()
      ensures State().books == books && State().nextId == nextId && State().weights == weights && State().s == engine.State()
    {
      hide States, BlockManager.State, Scheduler.State;
    }

    lemma EngineSize()
      ensures |engine.State().reqs| == |engine.scheduler.reqs|
    {
      hide States, BlockManager.State;
    }
  }

  function EvictedReq(r: Req): Req {
    var r' := r.(residency := NoKv, snapshot := None);
    if r.table == [] then r'.(computed := 0, scheduled := 0) else r'
  }

  /** The branches of a save that copies something. */
  lemma SaveSteps(net: Net, h: HostConfig, t: Tiered, k: nat, copyFails: bool)
    requires TierInv(net, h, t) && k < |t.s.reqs| && t.s.reqs[k].status == Paused && t.s.pool.bs >= 1
    requires !(t.s.reqs[k].residency == OnCpu && t.s.reqs[k].snapshot.Some?)
    ensures t.s.reqs[k].residency != OnCpu
    ensures var t1 := t.(nextId := t.nextId + 1); var bytes := BlockBytes(h, BlocksNeededFor(t.s.reqs[k].computed, t.s.pool.bs));
      if bytes > h.maxBytes then Offload.Save(h, t, k, copyFails) == (t1, NoRoom)
      else
        var t2 := MakeRoom(h, t1, bytes);
        && TierInv(net, h, t2) && Stored(h, t2.books.snaps) + bytes <= h.maxBytes && Savable(t2, k) && t2.s.pool.bs == t.s.pool.bs
        && t2.s.reqs[k] == t.s.reqs[k] && (forall x :: x in t2.books.snaps ==> x.id < t.nextId)
        && Offload.Save(h, t, k, copyFails) == if copyFails then (t2, CopyFailed) else (SaveAs(h, t2, k, t.nextId), Saved)
  {
    hide TierInv, MakeRoom, Stored, DecrefAll, Transfer.Exported, BlocksNeededFor, Find, AddSnap, BlockBytes, Local, Rest;
    ResidentIff(net, h, t, k);
    TierSys(net, h, t);
    KvOf(net, t.s);
    At(net, t.s, k);
    SavedContents(net, t.s.pool, t.s.mem, Rest(t.s.reqs, k), t.s.reqs[k]);
    var t1 := t.(nextId := t.nextId + 1);
    var bytes := BlockBytes(h, BlocksNeededFor(t.s.reqs[k].computed, t.s.pool.bs));
    NextIdInv(net, h, t);
    if bytes <= h.maxBytes {
      MakeRoomInv(net, h, t1, bytes);
      forall x | x in MakeRoom(h, t1, bytes).books.snaps
        ensures x.id < t.nextId
      {
        TierSnapIds(net, h, t, x);
      }
    }
  }

  lemma SaveSkips(h: HostConfig, t: Tiered, k: nat, copyFails: bool)
    requires t.s.pool.bs >= 1
    ensures k >= |t.s.reqs| || t.s.reqs[k].status != Paused ==> Offload.Save(h, t, k, copyFails) == (t, NotPaused)
    ensures k < |t.s.reqs| && t.s.reqs[k].status == Paused && t.s.reqs[k].residency == OnCpu && t.s.reqs[k].snapshot.Some? ==>
      Offload.Save(h, t, k, copyFails) == (t, if Find(t.books.snaps, k).Some? then Saved else Stale)
  {
    hide MakeRoom, DecrefAll, Transfer.Exported, BlocksNeededFor;
  }

  lemma SavableShape(net: Net, h: HostConfig, t: Tiered, k: nat)
    requires TierInv(net, h, t) && Savable(t, k)
    ensures var r, blocks := t.s.reqs[k], BlocksNeededFor(t.s.reqs[k].computed, t.s.pool.bs);
      && t.s.pool.bs >= 1 && MemoryShape(t.s.mem, t.s.pool.bs) && blocks <= |r.table| && InPool(r.table[..blocks], |t.s.mem|)
      && r.computed <= blocks * t.s.pool.bs && blocks * t.s.pool.bs < r.computed + t.s.pool.bs
  {
    hide TierInv, SysInv, BlocksNeededFor;
    TierSys(net, h, t);
    MemoryOf(net, t.s);
    BlocksTight(t.s.reqs[k].computed, t.s.pool.bs);
  }

  lemma MemoryOf(net: Net, s: Sys)
    requires SysInv(net, s)
    ensures MemoryShape(s.mem, s.pool.bs)
  {
    hide PoolInv, CacheHolds, ReqInv, AllShaped, Queues;
  }

  lemma BlocksTight(valid: nat, bs: nat)
    requires bs >= 1
    ensures var blocks := BlocksNeededFor(valid, bs); valid <= blocks * bs && blocks * bs < valid + bs
  {
    var blocks := BlocksNeededFor(valid, bs);
    BlocksNeededForMeaning(valid, bs, blocks);
    if blocks > 0 {
      BlocksNeededForMeaning(valid, bs, blocks - 1);
      MulStep(blocks, bs);
    }
  }

  function JoinHolds(all: seq<Hold>, result: (nat, Option<seq<Hold>>)): (nat, Option<seq<Hold>>) {
    (result.0, if result.1.None? then None else Some(all + result.1.value))
  }

  lemma DescribedFrom(h: HostConfig, t: Tiered, group: seq<nat>, id: nat)
    ensures Described(h, t, group, id) == JoinHolds([], Described(h, t, group, id))
  {
    hide Described;
    var holds := Described(h, t, group, id).1;
    assert holds.Some? ==> [] + holds.value == holds.value;
  }

  lemma DescribedSteps(h: HostConfig, t: Tiered, group: seq<nat>, i: nat, id: nat, all: seq<Hold>)
    requires i < |group| && t.s.pool.bs >= 1
    ensures !Savable(t, group[i]) ==> JoinHolds(all, Described(h, t, group[i..], id)) == (id, None)
    ensures Savable(t, group[i]) ==> group[i] < |t.s.reqs|
    ensures Savable(t, group[i]) ==>
      JoinHolds(all, Described(h, t, group[i..], id)) == JoinHolds(all + [Hold(id, SaveBytes(h, t, group[i]))], Described(h, t, group[i + 1..], id + 1))
  {
    hide BlocksNeededFor, BlockBytes, InPool;
    assert group[i..][1..] == group[i + 1..];
    var rest := Described(h, t, group[i + 1..], id + 1).1;
    if Savable(t, group[i]) && rest.Some? {
      Outcomes.Reassociate(all, [Hold(id, SaveBytes(h, t, group[i]))], rest.value);
    }
  }

  lemma DescribedEnd(h: HostConfig, t: Tiered, group: seq<nat>, i: nat, id: nat, all: seq<Hold>)
    requires i == |group|
    ensures JoinHolds(all, Described(h, t, group[i..], id)) == (id, Some(all))
  {
    assert all + [] == all;
  }

  /** Every request can be described: its computed prefix lies within its history and its table. */
  lemma SavableHere(net: Net, h: HostConfig, t: Tiered, k: nat)
    requires TierInv(net, h, t) && t.s.pool.bs >= 1
    ensures Savable(t, k) <==> k < |t.s.reqs|
    ensures Savable(t, k) ==> t.s.reqs[k].computed <= |t.s.reqs[k].tokens| && BlocksNeededFor(t.s.reqs[k].computed, t.s.pool.bs) <= |t.s.reqs[k].table|
  {
    hide TierInv, SysInv, BlocksNeededFor, Local, Rest, Transfer.Exported, Holds;
    if k < |t.s.reqs| {
      TierSys(net, h, t);
      KvOf(net, t.s);
      At(net, t.s, k);
      SavedContents(net, t.s.pool, t.s.mem, Rest(t.s.reqs, k), t.s.reqs[k]);
    }
  }

  lemma {:induction false} TotalConcat(a: seq<Hold>, b: seq<Hold>)
    ensures Total(a + b) == Total(a) + Total(b)
  {
    if a == [] {
      assert a + b == b;
    } else {
      assert (a + b)[1..] == a[1..] + b;
      TotalConcat(a[1..], b);
    }
  }

  lemma TotalUpto(holds: seq<Hold>, i: nat)
    requires i <= |holds|
    ensures Total(holds[..0]) == 0 && Total(holds[..i]) <= Total(holds)
    ensures i < |holds| ==> Total(holds[..i + 1]) == Total(holds[..i]) + holds[i].bytes <= Total(holds)
  {
    hide Total;
    assert holds == holds[..i] + holds[i..];
    TotalConcat(holds[..i], holds[i..]);
    NoTotal();
    assert holds[..0] == [];
    if i < |holds| {
      assert holds[..i + 1] == holds[..i] + [holds[i]];
      TotalConcat(holds[..i], [holds[i]]);
      OneTotal(holds[i]);
      assert holds == holds[..i + 1] + holds[i + 1..];
      TotalConcat(holds[..i + 1], holds[i + 1..]);
    }
  }

  lemma NoTotal()
    ensures Total([]) == 0
  {
  }

  lemma OneTotal(hold: Hold)
    ensures Total([hold]) == hold.bytes
  {
    assert [hold][1..] == [];
    NoTotal();
  }

  lemma PreparedRoom(net: Net, h: HostConfig, t: Tiered, group: seq<nat>)
    requires TierInv(net, h, t) && t.s.pool.bs >= 1
    ensures var (t1, holds) := Prepare(h, t, group); holds.Some? ==> Stored(h, t1.books.snaps) + Total(holds.value) <= h.maxBytes
  {
    hide TierInv, Prepare, Stored, Total, Ascending, Ahead, Sized;
    PreparedBooked(net, h, t, group);
  }

  lemma MembersUnfold(h: HostConfig, g: Group, group: seq<nat>, holds: seq<Hold>, i: nat, minFree: nat, fails: set<nat>)
    requires i < |group| && i < |holds|
    ensures var g1 := SaveHeld(h, g, group[i], holds[i], group[i] in fails); var g2 := g1.(t := Groups.ReclaimCached(g1.t, minFree));
      SaveMembers(h, g, group[i..], holds[i..], minFree, fails)
      == if g1.failed then g1 else if |g2.t.s.pool.free| >= minFree then g2 else SaveMembers(h, g2, group[i + 1..], holds[i + 1..], minFree, fails)
  {
    hide SaveHeld, Groups.ReclaimCached;
    assert group[i..][1..] == group[i + 1..] && holds[i..][1..] == holds[i + 1..];
  }

  lemma MembersEnd(h: HostConfig, g: Group, group: seq<nat>, holds: seq<Hold>, minFree: nat, fails: set<nat>)
    requires group == []
    ensures SaveMembers(h, g, group, holds, minFree, fails) == g
  {
  }

  function Cold(r: Req): Req {
    r.(computed := 0, scheduled := 0, cached := 0, published := 0, residency := NoKv, snapshot := None)
  }

  function DropTiered(h: HostConfig, t: Tiered, k: nat): Tiered
    requires k < |t.s.reqs|
  {
    t.(s := SetReq(t.s, k, DecrefAll(t.s.pool, t.s.reqs[k].table), Cold(t.s.reqs[k].(table := []))), books := Forget(h, t.books, k))
  }

  lemma ColdSys(net: Net, s: Sys, k: nat)
    requires SysInv(net, s) && k < |s.reqs| && s.reqs[k].status == Paused
    ensures SysInv(net, SetReq(s, k, DecrefAll(s.pool, s.reqs[k].table), Cold(s.reqs[k].(table := []))))
  {
    hide SysInv, DecrefAll, Local, Frame, Rest;
    var r := s.reqs[k];
    KvOf(net, s);
    At(net, s, k);
    DeallocateStep(net, s.pool, s.mem, Rest(s.reqs, k), r, Cold(r.(table := [])));
    PausedStep(net, s, k, DecrefAll(s.pool, r.table), s.mem, Cold(r.(table := [])));
    var s' := SetReq(s, k, DecrefAll(s.pool, r.table), Cold(r.(table := [])));
    assert s'.(mem := s.mem) == s';
  }

  lemma DropTieredInv(net: Net, h: HostConfig, t: Tiered, k: nat)
    requires TierInv(net, h, t) && k < |t.s.reqs| && t.s.reqs[k].status == Paused
    ensures TierInv(net, h, DropTiered(h, t, k))
  {
    hide SysInv, Stored, Balanced, SnapGood, Find, Forget, DecrefAll, UsesGood;
    var t' := DropTiered(h, t, k);
    ColdSys(net, t.s, k);
    ForgetBalanced(h, t.books, k);
    TierOrdered(net, h, t);
    T.ForgetShape(h, t.books, k);
    forall snap | snap in t'.books.snaps
      ensures SnapGood(net, t', snap)
    {
      SnapOwner(net, t, snap);
      SnapStays(net, t, t', snap);
    }
    forall j | 0 <= j < |t'.s.reqs| && t'.s.reqs[j].residency == OnCpu
      ensures Find(t'.books.snaps, j).Some?
    {
      T.FindElsewhere(t.books.snaps, t'.books.snaps, j);
    }
    T.UsesAfterFinish(t, t', k);
  }

  function MarkedRows(b: Books, rows: seq<Row>): Books
    decreases |rows|
  {
    if rows == [] then b else MarkedRows(MarkUsed(b, rows[0].id, rows[0].req), rows[1..])
  }

  lemma {:induction false} MarkedRowsAre(b: Books, reqs: seq<Req>, ids: seq<nat>)
    ensures MarkedRows(b, Rows(reqs, ids)) == MarkAll(b, reqs, ids)
    decreases |ids|
  {
    hide MarkUsed;
    if ids != [] {
      var rest := Rows(reqs, ids[1..]);
      if ids[0] < |reqs| {
        assert ([Row(ids[0], reqs[ids[0]])] + rest)[1..] == rest;
        MarkedRowsAre(MarkUsed(b, ids[0], reqs[ids[0]]), reqs, ids[1..]);
      } else {
        assert [] + rest == rest;
        MarkedRowsAre(b, reqs, ids[1..]);
      }
    }
  }

  lemma MarkUsedSnaps(b: Books, k: nat, r: Req)
    ensures MarkUsed(b, k, r).snaps == b.snaps
  {
  }

  lemma StepIs(net: Net, cfg: Config, h: HostConfig, propose: Proposer, t: Tiered)
    ensures var result := E.PagedStep(net, cfg, propose, t.s); var (t', e) := T.StepTiered(net, cfg, h, propose, t);
      (result.Stepped? ==> t' == t.(s := result.s, books := MarkedRows(t.books, StepRows(cfg, propose, t.s))) && e == Emitted(result.emitted))
      && (result.Refused? ==> t' == t.(s := result.s) && e == Rejected && StepRows(cfg, propose, t.s) == [])
      && (result.Broken? ==> e == Corrupt)
    ensures MarkedRows(t.books, []) == t.books
  {
    hide ScheduleLoop, E.PagedBatch, MarkAll, Rows, E.NormalIds;
    var outcome := Schedule(cfg, propose, t.s);
    if outcome.Scheduled? {
      MarkedRowsAre(t.books, outcome.s.reqs, E.NormalIds(outcome.s, outcome.ids));
    }
  }

  lemma RestoreQueues(h: HostConfig, t: Tiered, k: nat, snap: Snap, copyFails: bool)
    requires k < |t.s.reqs| && t.s.pool.bs >= 1
    ensures var s1 := RestoreSnap(h, t, k, snap, copyFails).0; s1.waiting == t.s.waiting && s1.running == t.s.running
  {
    hide Restore.DeviceHits, Restore.RebuildTable, Transfer.Imported, Restore.Pins, PlainRestore.PlainTable;
    Restore.PinsCount(Restore.DeviceHits(t.s.pool, t.s.reqs[k].tokens, snap.valid, |snap.buffer|));
  }

  lemma SaveBytesNext(h: HostConfig, t: Tiered, k: nat)
    requires k < |t.s.reqs| && t.s.pool.bs >= 1
    ensures SaveBytes(h, t.(nextId := t.nextId + 1), k) == SaveBytes(h, t, k)
  {
    hide BlocksNeededFor, BlockBytes;
  }

  /** An engine with nothing in host memory. */
  lemma FreshTier(net: Net, h: HostConfig, s: Sys)
    requires SysInv(net, s) && forall k :: 0 <= k < |s.reqs| ==> s.reqs[k].residency != OnCpu
    ensures TierInv(net, h, Tiered(s, Books([], [], 0, 0, 0), 0, 0))
  {
    hide SysInv;
  }

  lemma RoomUnfolds(h: HostConfig, t: Tiered, bytes: nat)
    ensures t.books.snaps == [] || Stored(h, t.books.snaps) + bytes <= h.maxBytes ==> MakeRoom(h, t, bytes) == t
    ensures t.books.snaps != [] && Stored(h, t.books.snaps) + bytes > h.maxBytes ==>
      MakeRoom(h, t, bytes) == MakeRoom(h, EvictOldest(h, t), bytes) && |EvictOldest(h, t).books.snaps| < |t.books.snaps|
  {
    hide Stored, Bytes;
    if t.books.snaps != [] {
      DropSnapShrinks(h, t.books);
    }
  }

  lemma EvictedIs(h: HostConfig, t: Tiered)
    requires t.books.snaps != []
    ensures var snap := t.books.snaps[0]; var t1 := t.(books := DropSnap(h, t.books, snap));
      && DropSnap(h, t.books, snap).snaps == t.books.snaps[1..]
      && EvictOldest(h, t) == if snap.owner >= |t.s.reqs| then t1 else t1.(s := SetReq(t.s, snap.owner, t.s.pool, EvictedReq(t.s.reqs[snap.owner])))
  {
    hide Bytes;
  }
}

/** Turns of conversations on one engine with host memory behind it: admission onto a parked
    session or cold, harvesting, parking, and giving idle KV up under pressure.  In every
    reachable state each parked session is on the books under exactly the tokens its request
    holds, and the snapshots, the store and the device agree. */
module Rollout {
  import opened Kv
  import opened BlockPool
  import opened Requests
  import opened System
  import opened ScheduleInv
  import E = Engine
  import opened Runs
  import opened Outcomes
  import opened BlockManagers
  import opened Schedulers
  import opened EngineLoop
  import opened Sessions
  import O = Offload
  import G = Groups
  import T = OffloadRuns
  import M = OffloadManagers
  import Reclaim
  import opened St = Steady
  import opened Turns

  datatype Admission = Continuing(id: nat, reused: nat) | Started(id: nat) | Deferred | TurnedAway

  // ----- whom to move to the host -----

  function InsertByStamp(x: Session, sorted: seq<Session>): seq<Session> {
    if sorted == [] || x.stamp <= sorted[0].stamp then [x] + sorted else [sorted[0]] + InsertByStamp(x, sorted[1..])
  }

  function ByStamp(held: seq<Session>): seq<Session> {
    if held == [] then [] else InsertByStamp(held[0], ByStamp(held[1..]))
  }

  predicate CanMove(x: Session, claims: set<nat>, reqs: seq<Req>) {
    x.id !in claims && x.id < |reqs| && reqs[x.id].table != []
  }

  function Movable(sorted: seq<Session>, claims: set<nat>, reqs: seq<Req>): seq<Session> {
    if sorted == [] then []
    else (if CanMove(sorted[0], claims, reqs) then [sorted[0]] else []) + Movable(sorted[1..], claims, reqs)
  }

  /** The parked, unclaimed sessions that hold blocks, least recently parked first. */
  function Candidates(held: seq<Session>, claims: set<nat>, reqs: seq<Req>): seq<Session> {
    Movable(ByStamp(held), claims, reqs)
  }

  ghost predicate OldestFirst(held: seq<Session>) {
    forall i, j :: 0 <= i < j < |held| ==> held[i].stamp <= held[j].stamp
  }

  lemma {:induction false} InsertKeepsOrder(x: Session, sorted: seq<Session>)
    requires OldestFirst(sorted)
    ensures OldestFirst(InsertByStamp(x, sorted)) && |InsertByStamp(x, sorted)| == |sorted| + 1
    ensures forall y :: y in InsertByStamp(x, sorted) <==> y == x || y in sorted
  {
    if sorted != [] && x.stamp > sorted[0].stamp {
      InsertKeepsOrder(x, sorted[1..]);
      assert sorted == [sorted[0]] + sorted[1..];
      assert forall y :: y in sorted[1..] ==> sorted[0].stamp <= y.stamp;
    }
  }

  lemma {:induction false} ByStampSorts(held: seq<Session>)
    ensures OldestFirst(ByStamp(held)) && |ByStamp(held)| == |held| && forall y :: y in ByStamp(held) <==> y in held
  {
    if held != [] {
      ByStampSorts(held[1..]);
      InsertKeepsOrder(held[0], ByStamp(held[1..]));
      assert held == [held[0]] + held[1..];
    }
  }

  lemma {:induction false} MovableMembers(sorted: seq<Session>, claims: set<nat>, reqs: seq<Req>)
    ensures forall x :: x in Movable(sorted, claims, reqs) <==> x in sorted && CanMove(x, claims, reqs)
  {
    hide CanMove;
    if sorted != [] {
      MovableMembers(sorted[1..], claims, reqs);
      assert sorted == [sorted[0]] + sorted[1..];
    }
  }

  lemma OldestStays(sorted: seq<Session>, later: seq<Session>)
    requires sorted != [] && OldestFirst(sorted) && OldestFirst(later) && forall x :: x in later ==> x in sorted[1..]
    ensures OldestFirst([sorted[0]] + later)
  {
    forall j | 0 <= j < |later|
      ensures sorted[0].stamp <= later[j].stamp
    {
      assert later[j] in later;
    }
  }

  lemma {:induction false} MovableOrder(sorted: seq<Session>, claims: set<nat>, reqs: seq<Req>)
    requires OldestFirst(sorted)
    ensures OldestFirst(Movable(sorted, claims, reqs))
  {
    hide CanMove;
    if sorted != [] {
      MovableOrder(sorted[1..], claims, reqs);
      MovableMembers(sorted[1..], claims, reqs);
      OldestStays(sorted, Movable(sorted[1..], claims, reqs));
    }
  }

  /** Nobody claimed is a candidate, everybody else with blocks is, and they come oldest first. */
  lemma CandidatesMeaning(held: seq<Session>, claims: set<nat>, reqs: seq<Req>)
    ensures var candidates := Candidates(held, claims, reqs);
      OldestFirst(candidates) && forall x :: x in candidates <==> x in held && CanMove(x, claims, reqs)
  {
    hide CanMove, Movable, ByStamp;
    ByStampSorts(held);
    MovableOrder(ByStamp(held), claims, reqs);
    MovableMembers(ByStamp(held), claims, reqs);
  }

  function Ids(held: seq<Session>): (ids: seq<nat>)
    ensures |ids| == |held| && forall i :: 0 <= i < |held| ==> ids[i] == held[i].id
  {
    seq(|held|, i requires 0 <= i < |held| => held[i].id)
  }

  /** The shortest prefix that predicts enough, of at most eight candidates. */
  ghost predicate ShortestGroup(p: Pool, reqs: seq<Req>, candidates: seq<nat>, need: int, group: seq<nat>) {
    && group <= candidates && 1 <= |group| <= 8
    && (|group| < 8 && |group| < |candidates| ==> Reclaim.Reclaimable(p, Reclaim.GroupBlocks(reqs, group)) >= need)
    && forall n :: 1 <= n < |group| ==> Reclaim.Reclaimable(p, Reclaim.GroupBlocks(reqs, candidates[..n])) < need
  }

  /** The same sessions in the same order; only the block counts may differ. */
  ghost predicate SameHeld(held: seq<Session>, held': seq<Session>) {
    && |held'| == |held|
    && forall i :: 0 <= i < |held| ==> held'[i] == held[i].(blocks := held'[i].blocks)
  }

  lemma SameHeldRefl(held: seq<Session>)
    ensures SameHeld(held, held)
  {
  }

  lemma SameHeldTrans(a: seq<Session>, b: seq<Session>, c: seq<Session>)
    requires SameHeld(a, b) && SameHeld(b, c)
    ensures SameHeld(a, c)
  {
  }

  lemma SameHeldBooks(s: Sys, held: seq<Session>, held': seq<Session>, flights: seq<Flight>, landed: seq<Flight>)
    requires Books(s, held, flights, landed) && SameHeld(held, held')
    ensures Books(s, held', flights, landed)
  {
    forall x | x in held'
      ensures exists y :: y in held && y.id == x.id && y.tokens == x.tokens
    {
      var j :| 0 <= j < |held'| && held'[j] == x;
      assert held[j] in held;
    }
  }

  /** Resident requests other than the listed ones are exactly as they were. */
  ghost predicate Spared(s: Sys, s': Sys, ids: seq<nat>) {
    |s'.reqs| == |s.reqs| && forall k: nat :: k < |s.reqs| && k !in ids && s.reqs[k].residency != OnCpu ==> s'.reqs[k] == s.reqs[k]
  }

  lemma SparedRefl(s: Sys, ids: seq<nat>)
    ensures Spared(s, s, ids)
  {
  }

  lemma SparedTrans(a: Sys, b: Sys, c: Sys, ids: seq<nat>)
    requires Spared(a, b, ids) && Spared(b, c, ids)
    ensures Spared(a, c, ids)
  {
  }

  lemma GroupSpares(t: O.Tiered, g: G.Group, group: seq<nat>, minFree: nat, ids: seq<nat>)
    requires G.GroupOutcome(t, g, group, minFree) && forall id :: id in group ==> id in ids
    ensures Spared(t.s, g.t.s, ids)
  {
  }

  /** Everything but the claimed session, the one that continues the history best. */
  ghost predicate AllButBest(held: seq<Session>, held': seq<Session>, ids: seq<Token>) {
    exists i: nat, mid: seq<Session> ::
      BestAmong(held, {}, ids, i, |held|) && SameHeld(held, mid) && forall x :: x in held' <==> x in mid && x.id != held[i].id
  }

  lemma MissingBest(held: seq<Session>, mid: seq<Session>, held': seq<Session>, ids: seq<Token>, i: nat)
    requires BestAmong(held, {}, ids, i, |held|) && SameHeld(held, mid) && forall x :: x in held' <==> x in mid && x.id != held[i].id
    ensures AllButBest(held, held', ids)
  {
  }

  /** A tenth of the pool, and at least one block. */
  function Watermark(blocks: nat): nat {
    if blocks / 10 < 1 then 1 else blocks / 10
  }

  class SessionRollout {
    const offload: M.SessionOffload
    const sessions: SessionCache
    /** Whether parked sessions may move to the host at all. */
    const spill: bool
    var flights: seq<Flight>

    constructor (offload: M.SessionOffload, sessions: SessionCache, spill: bool)
      requires offload.Valid() && sessions.Valid() && sessions.held == [] && sessions.claims == {}
      ensures Valid() && this.offload == offload && this.sessions == sessions && this.spill == spill && flights == []
    {
      hide *;
      this.offload, this.sessions, this.spill, flights := offload, sessions, spill, [];
      new;
      Opened();
    }

    /** With nothing parked and nothing in flight the books are in order. */
    lemma Opened()
      requires offload.Valid() && sessions.Valid() && sessions.held == [] && sessions.claims == {} && flights == []
      ensures Valid()
    {
      hide M.SessionOffload.Valid, EngineLoop.Engine.State, Known;
    }

    /** The engine's state. */
    function S(): Sys
      reads offload, offload.engine, offload.engine.scheduler, offload.engine.scheduler.reqs, offload.engine.scheduler.manager, offload.engine.scheduler.manager.cache, offload.engine.scheduler.kv
    {
      offload.engine.State()
    }

    ghost predicate Sound()
      reads this, offload, offload.store, offload.engine, offload.engine.scheduler, offload.engine.scheduler.reqs, offload.engine.scheduler.manager, offload.engine.scheduler.manager.cache, offload.engine.scheduler.kv, sessions
    {
      offload.Valid() && sessions.Valid()
    }

    /** Sound, with nothing claimed, and every history where it belongs. */
    ghost predicate Settled(landed: seq<Flight>)
      reads this, offload, offload.store, offload.engine, offload.engine.scheduler, offload.engine.scheduler.reqs, offload.engine.scheduler.manager, offload.engine.scheduler.manager.cache, offload.engine.scheduler.kv, sessions
    {
      Sound() && sessions.claims == {} && Books(S(), sessions.held, flights, landed)
    }

    ghost predicate Valid()
      reads this, offload, offload.store, offload.engine, offload.engine.scheduler, offload.engine.scheduler.reqs, offload.engine.scheduler.manager, offload.engine.scheduler.manager.cache, offload.engine.scheduler.kv, sessions
    {
      Settled([])
    }

    lemma Facts()
      requires Sound()
      ensures offload.State().s == S() && SysInv(offload.engine.net, S()) && O.TierInv(offload.engine.net, offload.h, offload.State())
      ensures S().pool.bs >= 1 && offload.engine.scheduler.Valid() && |S().reqs| == |offload.engine.scheduler.reqs|
      ensures S().pool.free == offload.engine.scheduler.manager.free
      ensures S().waiting == offload.engine.scheduler.waiting && S().running == offload.engine.scheduler.running
    {
      hide O.TierInv, SysInv, Known, M.Mirrored, States, M.AllClosed;
      offload.StateBooks();
      O.TierSys(offload.engine.net, offload.h, offload.State());
      T.SysSize(offload.engine.net, S());
    }

    lemma NoClaims(landed: seq<Flight>)
      requires Settled(landed)
      ensures sessions.claims == {}
    {
      hide Books, Known, M.SessionOffload.Valid;
    }

    // ----- leaving -----

    /** `finish_request` for every id that eviction retired. */
    method Retire(gone: seq<nat>, ghost landed: seq<Flight>)
      requires Sound() && Books(S(), sessions.held, flights, landed)
      requires forall id :: id in gone ==> (forall x :: x in sessions.held ==> x.id != id) && (forall f :: f in landed + flights ==> f.id != id)
      modifies offload`books, offload.store`snapshots, offload.store`committed, offload.store`pinned
      modifies offload.engine.scheduler`waiting, offload.engine.scheduler`running, offload.engine.scheduler.manager, offload.engine.scheduler.reqs
      ensures Sound() && Books(S(), sessions.held, flights, landed) && |S().reqs| == |old(S()).reqs|
    {
      hide SysInv, Books, Known, OthersSame, M.SessionOffload.Valid, M.SessionOffload.State, EngineLoop.Engine.State, T.FinishTiered;
      var i := 0;
      while i < |gone|
        invariant 0 <= i <= |gone|
        invariant Sound() && Books(S(), sessions.held, flights, landed) && |S().reqs| == |old(S()).reqs|
      {
        assert gone[i] in gone;
        ghost var t := offload.State();
        Facts();
        FinishOthers(offload.engine.net, offload.h, t, gone[i]);
        BooksOthers(t.s, T.FinishTiered(offload.h, t, gone[i]).s, gone[i], sessions.held, flights, landed);
        offload.FinishRequest(gone[i]);
        Facts();
        i := i + 1;
      }
    }

    // ----- idle KV yields -----

    /** `reclaim_cached_blocks`. */
    method ReclaimCached(minFree: nat, ghost landed: seq<Flight>)
      requires Settled(landed)
      modifies offload.engine.scheduler.manager, offload.engine.scheduler.manager.cache
      ensures Settled(landed) && SameTurns(old(S()), S()) && S().reqs == old(S()).reqs
    {
      hide SysInv, O.TierInv, Books, Known, SameTurns, M.Mirrored, States, BlockManager.State, Scheduler.State, G.ReclaimCached;
      ghost var t := offload.State();
      Facts();
      G.CachedReclaimed(offload.engine.net, offload.h, t, minFree);
      CachedTurns(t, minFree);
      BooksSameTurns(t.s, G.ReclaimCached(t, minFree).s, sessions.held, flights, landed);
      offload.ReclaimCached(minFree);
      offload.StateBooks();
    }

    /** The next group to try. */
    method PickGroup(candidates: seq<nat>, need: int) returns (group: seq<nat>)
      requires candidates != []
      ensures ShortestGroup(S().pool, S().reqs, candidates, need, group)
    {
      hide States, BlockManager.State, Scheduler.State, Reclaim.Reclaimable, Reclaim.GroupBlocks;
      group := [];
      var i := 0;
      while i < 8 && i < |candidates|
        invariant 0 <= i <= 8 && i <= |candidates| && group == candidates[..i]
        invariant forall n :: 1 <= n <= i ==> Reclaim.Reclaimable(S().pool, Reclaim.GroupBlocks(S().reqs, candidates[..n])) < need
      {
        group := group + [candidates[i]];
        i := i + 1;
        assert group == candidates[..i];
        if Reclaim.Reclaimable(S().pool, Reclaim.GroupBlocks(S().reqs, group)) >= need {
          return;
        }
      }
    }

    /** `update_blocks` for every member of a group. */
    method UpdateGroup(group: seq<nat>, ghost landed: seq<Flight>)
      requires Settled(landed) && offload.engine.scheduler.Valid()
      modifies sessions`held
      ensures Settled(landed) && SameHeld(old(sessions.held), sessions.held)
    {
      hide SysInv, Books, Known, M.SessionOffload.Valid, States, BlockManager.State, Scheduler.State;
      var i := 0;
      while i < |group|
        invariant 0 <= i <= |group| && Settled(landed) && SameHeld(old(sessions.held), sessions.held)
      {
        if group[i] < |offload.engine.scheduler.reqs| {
          ghost var held := sessions.held;
          sessions.UpdateBlocks(group[i], |offload.engine.scheduler.reqs[group[i]].state.table|);
          SameHeldBooks(S(), held, sessions.held, flights, landed);
        }
        i := i + 1;
      }
    }

    /** One group moves to the host, as far as the goal and the copies allow. */
    method MoveGroup(group: seq<nat>, minFree: nat, fails: set<nat>, ghost ids: seq<nat>, ghost landed: seq<Flight>)
      requires Settled(landed) && forall id :: id in group ==> id in ids
      modifies offload`books, offload`nextId, offload.store, offload.engine.scheduler.manager, offload.engine.scheduler.manager.cache, offload.engine.scheduler.reqs, sessions`held
      ensures Settled(landed) && SameHeld(old(sessions.held), sessions.held) && SameTurns(old(S()), S()) && Spared(old(S()), S(), ids)
    {
      hide SysInv, O.TierInv, Books, Known, SameTurns, M.SessionOffload.Valid, M.SessionOffload.State, EngineLoop.Engine.State, G.ReclaimGroup, Spared;
      ghost var t := offload.State();
      Facts();
      G.ReclaimGroupInv(offload.engine.net, offload.h, t, group, minFree, fails);
      GroupTurns(t, G.ReclaimGroup(offload.h, t, group, minFree, fails), group, minFree);
      GroupSpares(t, G.ReclaimGroup(offload.h, t, group, minFree, fails), group, minFree, ids);
      BooksSameTurns(t.s, G.ReclaimGroup(offload.h, t, group, minFree, fails).t.s, sessions.held, flights, landed);
      var committed, failed := offload.ReclaimGroup(group, minFree, fails);
      Facts();
      UpdateGroup(group, landed);
    }

    /** `_offload_oldest_until_safe`: groups of the least recently parked sessions move to the
        host, at most eight attempts; only parked sessions are touched, and only their KV. */
    method OffloadOldest(minFree: nat, fails: set<nat>, ghost landed: seq<Flight>)
      requires Settled(landed)
      modifies offload`books, offload`nextId, offload.store, offload.engine.scheduler.manager, offload.engine.scheduler.manager.cache, offload.engine.scheduler.reqs, sessions`held
      ensures Settled(landed) && SameHeld(old(sessions.held), sessions.held) && SameTurns(old(S()), S())
      ensures Spared(old(S()), S(), Ids(Candidates(old(sessions.held), {}, old(S()).reqs)))
      ensures !spill ==> S() == old(S()) && sessions.held == old(sessions.held)
    {
      hide SysInv, Books, Known, SameTurns, M.SessionOffload.Valid, EngineLoop.Engine.State, Spared, Candidates, SameHeld, Settled;
      SameTurnsRefl(S());
      SameHeldRefl(sessions.held);
      SparedRefl(S(), Ids(Candidates(sessions.held, {}, S().reqs)));
      if !spill {
        return;
      }
      NoClaims(landed);
      var all := Ids(Candidates(sessions.held, sessions.claims, offload.engine.State().reqs));
      var candidates, attempts := all, 0;
      while candidates != [] && |offload.engine.scheduler.manager.free| < minFree && attempts < 8
        invariant Settled(landed) && SameHeld(old(sessions.held), sessions.held) && SameTurns(old(S()), S())
        invariant Spared(old(S()), S(), all) && forall id :: id in candidates ==> id in all
        decreases |candidates|
      {
        ghost var s, held := S(), sessions.held;
        var group := PickGroup(candidates, minFree - |offload.engine.scheduler.manager.free|);
        MoveGroup(group, minFree, fails, all, landed);
        SameTurnsTrans(old(S()), s, S());
        SparedTrans(old(S()), s, S(), all);
        SameHeldTrans(old(sessions.held), held, sessions.held);
        candidates, attempts := candidates[|group|..], attempts + 1;
        if |offload.engine.scheduler.manager.free| >= minFree {
          return;
        }
      }
    }

    /** A parked session gives up its KV wherever it is; its history stays matchable. */
    method DropSession(i: nat, ghost landed: seq<Flight>)
      requires Settled(landed) && i < |sessions.held|
      modifies offload`books, offload.store`snapshots, offload.store`committed, offload.store`pinned
      modifies offload.engine.scheduler.manager, offload.engine.scheduler.reqs, sessions`held
      ensures Settled(landed) && SameTurns(old(S()), S()) && SameHeld(old(sessions.held), sessions.held)
      ensures sessions.held[i].blocks == 0 && forall j :: 0 <= j < |sessions.held| ==> sessions.held[j].blocks == old(sessions.held)[j].blocks || sessions.held[j].blocks == 0
    {
      hide SysInv, O.TierInv, Books, Known, SameTurns, M.SessionOffload.Valid, M.SessionOffload.State, EngineLoop.Engine.State, M.DropTiered;
      var id := sessions.held[i].id;
      ghost var t, held := offload.State(), sessions.held;
      Facts();
      HeldExact(t.s, sessions.held, flights, landed, sessions.held[i]);
      DropTurns(offload.h, t, id);
      BooksSameTurns(t.s, M.DropTiered(offload.h, t, id).s, sessions.held, flights, landed);
      offload.DropKv(id);
      Facts();
      sessions.UpdateBlocks(id, 0);
      SameHeldBooks(S(), held, sessions.held, flights, landed);
    }

    /** Parked sessions give up their KV, oldest first. */
    method DropUntil(minFree: nat, ghost landed: seq<Flight>)
      requires Settled(landed)
      modifies offload`books, offload.store`snapshots, offload.store`committed, offload.store`pinned
      modifies offload.engine.scheduler.manager, offload.engine.scheduler.manager.cache, offload.engine.scheduler.reqs, sessions`held
      ensures Settled(landed) && SameHeld(old(sessions.held), sessions.held) && SameTurns(old(S()), S())
      ensures |S().pool.free| >= minFree || NoneEvictable(sessions.held, {}, true)
    {
      hide SysInv, Books, Known, SameTurns, M.SessionOffload.Valid, EngineLoop.Engine.State, NoneEvictable;
      SameTurnsRefl(S());
      Facts();
      while |offload.engine.scheduler.manager.free| < minFree
        invariant Settled(landed) && SameHeld(old(sessions.held), sessions.held) && SameTurns(old(S()), S())
        invariant S().pool.free == offload.engine.scheduler.manager.free
        decreases Holding(sessions.held)
      {
        var i := sessions.OldestIndex(true);
        if i == -1 {
          return;
        }
        ghost var s, held := S(), sessions.held;
        DropSession(i, landed);
        HoldingLess(held, sessions.held, i);
        SameTurnsTrans(old(S()), s, S());
        SameHeldTrans(old(sessions.held), held, sessions.held);
        ghost var s1 := S();
        ReclaimCached(minFree, landed);
        SameTurnsTrans(old(S()), s1, S());
        Facts();
      }
    }

    /** `_evict_for_free_watermark`: disposable cache entries go first, then parked sessions move
        to the host, then they give their KV up, oldest first, until enough is free or none
        holds any.  Nobody's history is touched. */
    method EvictForWatermark(minFree: nat, fails: set<nat>, ghost landed: seq<Flight>)
      requires Settled(landed)
      modifies offload`books, offload`nextId, offload.store, offload.engine.scheduler.manager, offload.engine.scheduler.manager.cache, offload.engine.scheduler.reqs, sessions`held
      ensures Settled(landed) && SameHeld(old(sessions.held), sessions.held) && SameTurns(old(S()), S())
      ensures |S().pool.free| >= minFree || NoneEvictable(sessions.held, {}, true)
    {
      hide SysInv, Books, Known, SameTurns, M.SessionOffload.Valid, EngineLoop.Engine.State, Candidates, NoneEvictable, Settled, Spared;
      ghost var s := S();
      ReclaimCached(minFree, landed);
      if |offload.engine.scheduler.manager.free| < minFree {
        ghost var s1 := S();
        ReclaimCached(minFree, landed);
        SameTurnsTrans(s, s1, S());
      }
      ghost var s2 := S();
      OffloadOldest(minFree, fails, landed);
      SameTurnsTrans(s, s2, S());
      ghost var s3, held := S(), sessions.held;
      DropUntil(minFree, landed);
      SameTurnsTrans(s, s3, S());
      SameHeldTrans(old(sessions.held), held, sessions.held);
    }

    // ----- landing -----

    function Tables(): map<nat, seq<nat>>
      reads offload.engine.scheduler, offload.engine.scheduler.reqs
    {
      map i: nat | i < |offload.engine.scheduler.reqs| :: offload.engine.scheduler.reqs[i].state.table
    }

    /** The turn's whole history goes on the books, and whatever that pushes out is finished. */
    method RegisterTurn(f: Flight, ghost landed: seq<Flight>)
      requires Settled([f] + landed)
      modifies sessions`held, sessions`clock
      modifies offload`books, offload.store`snapshots, offload.store`committed, offload.store`pinned
      modifies offload.engine.scheduler`waiting, offload.engine.scheduler`running, offload.engine.scheduler.manager, offload.engine.scheduler.reqs
      ensures Settled(landed)
    {
      hide SysInv, Known, Evicted, Sessions.Fits, NoneEvictable, Needed, Registered, Books, M.SessionOffload.Valid, EngineLoop.Engine.State;
      LandedInRange(S(), sessions.held, flights, landed, f);
      Facts();
      ghost var held := sessions.held;
      var blocks := |offload.engine.scheduler.reqs[f.id].state.table|;
      var gone := sessions.Park(f.id, f.ids + f.turn, blocks, Tables());
      ParkedBooks(S(), held, sessions.held, flights, landed, f, Session(f.id, f.ids + f.turn, blocks, sessions.clock), gone);
      Retire(gone, landed);
    }

    /** `_park_or_release`. */
    method ParkTurn(f: Flight, fails: set<nat>, ghost landed: seq<Flight>)
      requires Settled([f] + landed)
      modifies sessions`held, sessions`clock, offload`books, offload`nextId, offload.store
      modifies offload.engine.scheduler`waiting, offload.engine.scheduler`running, offload.engine.scheduler.manager, offload.engine.scheduler.manager.cache, offload.engine.scheduler.reqs
      ensures Settled(landed)
    {
      hide SysInv, Known, NoneEvictable, Books, M.SessionOffload.Valid, EngineLoop.Engine.State, Settled;
      RegisterTurn(f, landed);
      EvictForWatermark(Watermark(|offload.engine.scheduler.manager.ref|), fails, landed);
    }

    /** The first turn's request is finished. */
    method FailFirst()
      requires Valid() && flights != []
      modifies this`flights, offload`books, offload.store`snapshots, offload.store`committed, offload.store`pinned
      modifies offload.engine.scheduler`waiting, offload.engine.scheduler`running, offload.engine.scheduler.manager, offload.engine.scheduler.reqs
      ensures Valid() && flights == old(flights)[1..]
    {
      hide SysInv, O.TierInv, Books, Known, OthersSame, M.SessionOffload.Valid, M.SessionOffload.State, EngineLoop.Engine.State, T.FinishTiered;
      var f := flights[0];
      ghost var t := offload.State();
      Facts();
      FinishOthers(offload.engine.net, offload.h, t, f.id);
      BooksDropFirst(t.s, T.FinishTiered(offload.h, t, f.id).s, sessions.held, flights);
      offload.FinishRequest(f.id);
      Facts();
      flights := flights[1..];
    }

    /** The step that every waiter is on failed: each of their requests is finished. */
    method FailEveryone()
      requires Valid()
      modifies this`flights, offload`books, offload.store`snapshots, offload.store`committed, offload.store`pinned
      modifies offload.engine.scheduler`waiting, offload.engine.scheduler`running, offload.engine.scheduler.manager, offload.engine.scheduler.reqs
      ensures Valid() && flights == []
    {
      hide Valid;
      while flights != []
        invariant Valid()
        decreases |flights|
      {
        FailFirst();
      }
    }

    // ----- one step -----

    /** The engine's own step: reported tokens are added to their turns, and those that are over
        have landed. */
    method StepTurns(propose: Proposer) returns (ok: bool, landed: seq<Flight>)
      requires Valid()
      modifies this`flights, offload`books, offload.engine`lastEmitted, offload.engine`lastRun
      modifies offload.engine.scheduler`waiting, offload.engine.scheduler`running, offload.engine.scheduler.manager, offload.engine.scheduler.manager.cache, offload.engine.scheduler.kv, offload.engine.scheduler.reqs
      ensures !ok ==> landed == [] && Valid()
      ensures ok ==> Settled(landed) && Reported(offload.engine.net, offload.engine.scheduler.cfg, propose, old(S()), offload.engine.lastEmitted)
      ensures ok ==> forall f :: f in landed + flights ==> FromFlights(old(flights), offload.engine.lastEmitted, f)
    {
      hide SysInv, O.TierInv, Books, Known, M.SessionOffload.Valid, M.SessionOffload.State, EngineLoop.Engine.State, E.PagedStep, E.RefStep, T.StepTiered, Flying, Down, Answered, HoldsKept, St.AllSteady;
      ghost var before := S();
      Facts();
      StepAnswers(offload.engine.net, offload.engine.scheduler.cfg, propose, before);
      StepHolds(offload.engine.net, offload.engine.scheduler.cfg, propose, before);
      ok := offload.Step(propose);
      Facts();
      landed := [];
      if !ok {
        RefusedBooks(offload.engine.net, offload.engine.scheduler.cfg, propose, before, sessions.held, flights);
        return;
      }
      BooksStep(offload.engine.net, offload.engine.scheduler.cfg, before, S(), sessions.held, flights, offload.engine.lastEmitted);
      HarvestedFrom(S(), flights, offload.engine.lastEmitted);
      landed := Down(offload.engine.State(), flights, offload.engine.lastEmitted);
      flights := Flying(offload.engine.State(), flights, offload.engine.lastEmitted);
    }

    /** One round of the owner thread: idle KV yields when no block is free, the engine steps,
        and every turn that is over is parked. */
    method RunStep(propose: Proposer, fails: set<nat>) returns (ok: bool)
      requires Valid()
      modifies this`flights, offload`books, offload`nextId, offload.store, offload.engine`lastEmitted, offload.engine`lastRun, sessions`held, sessions`clock
      modifies offload.engine.scheduler`waiting, offload.engine.scheduler`running, offload.engine.scheduler.manager, offload.engine.scheduler.manager.cache, offload.engine.scheduler.kv, offload.engine.scheduler.reqs
      ensures Valid()
      ensures !ok ==> flights == []
      ensures ok ==> exists s :: SameTurns(old(S()), s) && Reported(offload.engine.net, offload.engine.scheduler.cfg, propose, s, offload.engine.lastEmitted)
      ensures ok ==> forall f :: f in flights ==> FromFlights(old(flights), offload.engine.lastEmitted, f)
    {
      hide SysInv, Books, Known, M.SessionOffload.Valid, EngineLoop.Engine.State, Reported, FromFlights, SameTurns, SameHeld, NoneEvictable, Settled;
      SameTurnsRefl(S());
      if |offload.engine.scheduler.manager.free| == 0 {
        EvictForWatermark(1, fails, []);
      }
      ghost var s := S();
      var landed;
      ok, landed := StepTurns(propose);
      if !ok {
        FailEveryone();
        return;
      }
      ghost var emitted := offload.engine.lastEmitted;
      while landed != []
        invariant Settled(landed) && offload.engine.lastEmitted == emitted
        invariant forall f :: f in flights ==> FromFlights(old(flights), emitted, f)
        decreases |landed|
      {
        assert landed == [landed[0]] + landed[1..];
        ParkTurn(landed[0], fails, landed[1..]);
        landed := landed[1..];
      }
    }

    // ----- admission -----

    /** The claimed session leaves the books: its turn is in flight. */
    method TakeUp(claim: Claim, ids: seq<Token>, ghost s: Sys, ghost x: Session)
      requires Sound() && Books(s, sessions.held, flights, []) && sessions.claims == {claim.id} && x in sessions.held && x.id == claim.id
      requires OthersSame(s, S(), claim.id) && InFlight(S(), Flight(claim.id, ids, []))
      modifies this`flights, sessions
      ensures Valid() && flights == old(flights) + [Flight(claim.id, ids, [])]
    {
      hide SysInv, Books, Known, OthersSame, M.SessionOffload.Valid, EngineLoop.Engine.State, InFlight;
      ghost var held := sessions.held;
      var _ := sessions.CommitClaim(claim);
      BooksContinue(s, S(), held, sessions.held, flights, x, Flight(claim.id, ids, []));
      flights := flights + [Flight(claim.id, ids, [])];
    }

    /** A resume onto the claimed session; whatever is refused gives the claim back. */
    method ContinueClaim(claim: Claim, ids: seq<Token>, q: Params, copyFails: bool, ghost x: Session) returns (why: M.Resumption)
      requires Sound() && Books(S(), sessions.held, flights, []) && sessions.claims == {claim.id} && q.hold
      requires x in sessions.held && x.id == claim.id && x.tokens + claim.suffix == ids
      modifies this`flights, sessions, offload`books, offload.store`snapshots, offload.store`committed, offload.store`pinned
      modifies offload.engine.scheduler`waiting, offload.engine.scheduler.manager, offload.engine.scheduler.manager.cache, offload.engine.scheduler.kv, offload.engine.scheduler.reqs
      ensures Valid()
      ensures why == M.Resumed ==>
        && Continued(offload.engine.net, old(offload.State()), offload.State(), claim.id, ids)
        && flights == old(flights) + [Flight(claim.id, ids, [])]
      ensures why != M.Resumed ==> SameTurns(old(S()), S()) && sessions.held == old(sessions.held) && flights == old(flights)
    {
      hide SysInv, O.TierInv, Books, Known, OthersSame, M.SessionOffload.Valid, M.SessionOffload.State, EngineLoop.Engine.State, M.ResumeOutcome, Holds, FromSnapshot, SameTurns;
      ghost var t := offload.State();
      Facts();
      HeldExact(t.s, sessions.held, flights, [], x);
      RefusedTurns(offload.engine.net, offload.h, t, claim.id, claim.suffix, q, copyFails);
      ResumedTurn(offload.engine.net, offload.h, t, claim.id, claim.suffix, q, copyFails);
      why := offload.Resume(claim.id, claim.suffix, q, copyFails);
      Facts();
      if why != M.Resumed {
        sessions.RollbackClaim(claim);
        BooksSameTurns(t.s, S(), sessions.held, flights, []);
        return;
      }
      assert ids + [] == ids;
      TakeUp(claim, ids, t.s, x);
    }

    /** A cold start on the whole history. */
    method StartCold(ids: seq<Token>, q: Params) returns (result: Admission)
      requires Valid() && q.hold
      modifies this`flights, sessions`started, sessions`prefilled
      modifies offload.engine.scheduler`waiting, offload.engine.scheduler`reqs, offload.engine.scheduler.manager, offload.engine.scheduler.manager.cache
      ensures Valid() && (result.Started? || result.TurnedAway?) && sessions.held == old(sessions.held)
      ensures result.Started? ==> flights == old(flights) + [Flight(result.id, ids, [])] && result.id == |old(S()).reqs| < |S().reqs| && S().reqs[result.id].tokens == ids
      ensures result.TurnedAway? ==> S() == old(S()) && flights == old(flights)
    {
      hide SysInv, O.TierInv, Books, Known, OthersSame, M.SessionOffload.Valid, M.SessionOffload.State, EngineLoop.Engine.State, AddRequest;
      ghost var t := offload.State();
      Facts();
      AddOthersSame(t.s, ids, q);
      var id := offload.AddRequest(ids, q);
      Facts();
      if id.None? {
        return TurnedAway;
      }
      assert ids + [] == ids;
      BooksStart(t.s, S(), sessions.held, flights, Flight(id.value, ids, []));
      flights := flights + [Flight(id.value, ids, [])];
      sessions.RecordStart(ids);
      result := Started(id.value);
    }

    /** No room for the restore: whether the turn should wait, for active work to yield or for
        blocks that idle sessions have just given up. */
    method ShouldWait(id: nat, fails: set<nat>) returns (wait: bool)
      requires Valid()
      modifies offload`books, offload`nextId, offload.store, offload.engine.scheduler.manager, offload.engine.scheduler.manager.cache, offload.engine.scheduler.reqs, sessions`held
      ensures Valid() && SameTurns(old(S()), S()) && SameHeld(old(sessions.held), sessions.held)
      ensures wait <==> old(S()).running != [] || old(S()).waiting != [] || |S().pool.free| > |old(S()).pool.free|
    {
      hide SysInv, O.TierInv, Books, Known, M.SessionOffload.Valid, EngineLoop.Engine.State, SameTurns, SameHeld, Spared, Candidates;
      Facts();
      SameTurnsRefl(S());
      SameHeldRefl(sessions.held);
      if offload.engine.scheduler.running != [] || offload.engine.scheduler.waiting != [] {
        return true;
      }
      var found := offload.FindSnapshot(id);
      if found.None? {
        return false;
      }
      var before := |offload.engine.scheduler.manager.free|;
      OffloadOldest(|found.value.buffer|, fails, []);
      Facts();
      wait := |offload.engine.scheduler.manager.free| > before;
    }

    /** The session cannot be restored: it is forgotten and its request finished. */
    method LoseSession(id: nat)
      requires Valid() && forall f :: f in flights ==> f.id != id
      modifies sessions`held, sessions`claims, offload`books, offload.store`snapshots, offload.store`committed, offload.store`pinned
      modifies offload.engine.scheduler`waiting, offload.engine.scheduler`running, offload.engine.scheduler.manager, offload.engine.scheduler.reqs
      ensures Valid() && forall x :: x in sessions.held <==> x in old(sessions.held) && x.id != id
    {
      hide SysInv, Known, Books, M.SessionOffload.Valid, EngineLoop.Engine.State;
      ghost var held := sessions.held;
      sessions.Forget(id);
      BooksFewer(S(), held, sessions.held, flights, []);
      assert [] + flights == flights;
      Retire([id], []);
    }

    /** The best match is claimed. */
    method ClaimBest(ids: seq<Token>) returns (claim: Option<Claim>, ghost at: nat)
      requires Valid()
      modifies sessions`claims
      ensures Sound() && Books(S(), sessions.held, flights, [])
      ensures claim.None? ==> sessions.claims == {} && forall i :: 0 <= i < |sessions.held| ==> !Claimable(sessions.held[i], {}, ids)
      ensures claim.Some? ==>
        && BestAmong(sessions.held, {}, ids, at, |sessions.held|) && sessions.claims == {claim.value.id} && claim.value.id == sessions.held[at].id
        && claim.value.shared == |sessions.held[at].tokens| && sessions.held[at].tokens + claim.value.suffix == ids
        && forall f :: f in flights ==> f.id != claim.value.id
    {
      hide SysInv, Known, Books, M.SessionOffload.Valid, EngineLoop.Engine.State;
      at := 0;
      claim := sessions.ReserveClaim(ids);
      if claim.Some? {
        at :| at < |sessions.held| && BestAmong(sessions.held, {}, ids, at, |sessions.held|) && claim.value == ClaimOf(sessions.held[at], ids);
        BestIsExact(sessions.held, ids, at);
        ApartFlights(S(), sessions.held, flights, sessions.held[at]);
      }
    }

    /** After a refused restore: wait, or give the session up and start cold. */
    method AdmitRefused(id: nat, why: M.Resumption, ids: seq<Token>, q: Params, fails: set<nat>, ghost at: nat) returns (result: Admission)
      requires Valid() && q.hold && (forall f :: f in flights ==> f.id != id)
      requires BestAmong(sessions.held, {}, ids, at, |sessions.held|) && sessions.held[at].id == id
      modifies this`flights, sessions, offload`books, offload`nextId, offload.store
      modifies offload.engine.scheduler, offload.engine.scheduler.manager, offload.engine.scheduler.manager.cache, offload.engine.scheduler.reqs
      ensures Valid() && !result.Continuing?
      ensures result.Started? ==> flights == old(flights) + [Flight(result.id, ids, [])] && result.id < |S().reqs| && S().reqs[result.id].tokens == ids
      ensures !result.Started? ==> flights == old(flights)
      ensures result.Deferred? ==> SameTurns(old(S()), S()) && SameHeld(old(sessions.held), sessions.held)
      ensures !result.Deferred? ==> AllButBest(old(sessions.held), sessions.held, ids)
    {
      hide SysInv, Known, Books, M.SessionOffload.Valid, EngineLoop.Engine.State, SameTurns, BestAmong, AllButBest;
      ghost var before := sessions.held;
      SameHeldRefl(sessions.held);
      if why == M.NoRoomForRestore {
        var wait := ShouldWait(id, fails);
        if wait {
          return Deferred;
        }
      }
      ghost var mid := sessions.held;
      LoseSession(id);
      MissingBest(before, mid, sessions.held, ids, at);
      result := StartCold(ids, q);
    }

    /** `_admit`: the turn goes on from the best match, waits for room, or starts cold.  Whatever
        the answer, every history is where it was; an admitted turn's request holds exactly the
        submitted one, with its KV as it stood or exactly as it was saved. */
    method Admit(ids: seq<Token>, q: Params, copyFails: bool, fails: set<nat>) returns (result: Admission)
      requires Valid() && q.hold
      modifies this`flights, sessions, offload`books, offload`nextId, offload.store
      modifies offload.engine.scheduler, offload.engine.scheduler.manager, offload.engine.scheduler.manager.cache, offload.engine.scheduler.kv, offload.engine.scheduler.reqs
      ensures Valid()
      ensures result.Continuing? || result.Started? ==> flights == old(flights) + [Flight(result.id, ids, [])] && result.id < |S().reqs| && S().reqs[result.id].tokens == ids
      ensures result.Continuing? ==>
        && Continued(offload.engine.net, old(offload.State()), offload.State(), result.id, ids)
        && exists i: nat :: i < |old(sessions.held)| && BestAmong(old(sessions.held), {}, ids, i, |old(sessions.held)|)
                            && old(sessions.held)[i].id == result.id && |old(sessions.held)[i].tokens| == result.reused
      ensures !result.Continuing? && !result.Started? ==> flights == old(flights)
      ensures result.Deferred? ==> SameTurns(old(S()), S()) && SameHeld(old(sessions.held), sessions.held)
      ensures result.Started? ==> sessions.held == old(sessions.held) || AllButBest(old(sessions.held), sessions.held, ids)
      ensures result.TurnedAway? ==>
        (SameTurns(old(S()), S()) && sessions.held == old(sessions.held)) || AllButBest(old(sessions.held), sessions.held, ids)
    {
      hide SysInv, Known, Books, M.SessionOffload.Valid, M.SessionOffload.State, EngineLoop.Engine.State, SameTurns, SameHeld, AllButBest, Holds, FromSnapshot;
      SameTurnsRefl(S());
      var claim, at := ClaimBest(ids);
      if claim.None? {
        result := StartCold(ids, q);
        return;
      }
      var why := ContinueClaim(claim.value, ids, q, copyFails, sessions.held[at]);
      if why == M.Resumed {
        Facts();
        return Continuing(claim.value.id, claim.value.shared);
      }
      if why == M.NotResumable || !spill {
        return TurnedAway;
      }
      ghost var s := S();
      result := AdmitRefused(claim.value.id, why, ids, q, fails, at);
      if result.Deferred? {
        SameTurnsTrans(old(S()), s, S());
      }
    }

    // ----- ending a trajectory -----

    /** `finish_session`: one unambiguous parked session, never one that is being claimed. */
    method FinishSession(history: seq<Token>) returns (n: nat)
      requires Valid()
      modifies sessions`held, sessions`claims, offload`books, offload.store`snapshots, offload.store`committed, offload.store`pinned
      modifies offload.engine.scheduler`waiting, offload.engine.scheduler`running, offload.engine.scheduler.manager, offload.engine.scheduler.reqs
      ensures Valid() && n <= 1
      ensures n == 1 <==> ExactlyOne(old(sessions.held), history)
      ensures n == 0 ==> sessions.held == old(sessions.held) && offload.State() == old(offload.State())
      ensures n == 1 ==> forall x :: x in sessions.held <==> x in old(sessions.held) && x.tokens != history
    {
      hide SysInv, Known, Books, M.SessionOffload.Valid, M.SessionOffload.State, EngineLoop.Engine.State, ExactlyOne;
      ghost var held, clock := sessions.held, sessions.clock;
      var id := sessions.FinishExact(history);
      OnlyOne(held, history);
      if id.None? {
        return 0;
      }
      ghost var x :| x in held && x.id == id.value && x.tokens == history;
      BooksFewer(S(), held, sessions.held, flights, []);
      ApartFlights(S(), held, flights, x);
      assert [] + flights == flights;
      OnlyThat(clock, held, history, x);
      Retire([id.value], []);
      n := 1;
    }
  }
}

/** Turns of conversations: which sessions are parked, which turns are in flight, and what every
    operation of the engine and of its host memory does to them. */
module Turns {
  import opened Kv
  import opened BlockPool
  import opened Requests
  import opened Ownership
  import opened SpecDecode
  import opened System
  import opened SystemInv
  import opened ScheduleInv
  import E = Engine
  import opened Runs
  import opened Outcomes
  import opened EngineLoop
  import opened Sessions
  import Transfer
  import opened Geometry
  import Restore
  import PlainRestore
  import O = Offload
  import G = Groups
  import T = OffloadRuns
  import M = OffloadManagers
  import opened St = Steady

  /** A turn in flight: the submitted history, and what has been reported for it so far. */
  datatype Flight = Flight(id: nat, ids: seq<Token>, turn: seq<Token>)

  // ----- a held request pauses when it is done -----

  predicate KeepsHold(r: Req, r': Req) {
    r'.hold == r.hold && (r.hold && Live(r) ==> Live(r') || r'.status == Paused)
  }

  predicate HoldsKept(reqs: seq<Req>, reqs': seq<Req>) {
    |reqs'| == |reqs| && forall k :: 0 <= k < |reqs| ==> KeepsHold(reqs[k], reqs'[k]) && (reqs[k].status == Paused ==> reqs'[k].status == Paused)
  }

  lemma HoldsTrans(a: seq<Req>, b: seq<Req>, c: seq<Req>)
    requires HoldsKept(a, b) && HoldsKept(b, c)
    ensures HoldsKept(a, c)
  {
  }

  lemma CompleteHolds(cfg: Config, s: Sys, k: nat)
    requires k < |s.reqs| && s.reqs[k].status == Running
    ensures HoldsKept(s.reqs, CompleteIfDone(cfg, s, k).reqs)
  {
    hide DecrefAll, Without, FinishReason;
  }

  lemma PublishHolds(s: Sys, k: nat)
    requires k < |s.reqs| && s.pool.bs >= 1
    ensures HoldsKept(s.reqs, Publish(s, k).reqs) && Publish(s, k).reqs[k].status == s.reqs[k].status
  {
    hide PublishLoop;
  }

  lemma PostHolds(cfg: Config, s: Sys, k: nat, token: Option<Token>)
    requires k < |s.reqs| && s.pool.bs >= 1 && s.reqs[k].status == Running
    ensures HoldsKept(s.reqs, PostOne(cfg, s, k, token).reqs)
  {
    hide Publish, CompleteIfDone;
    var r := s.reqs[k];
    var moved := SetReq(s, k, s.pool, r.(computed := r.computed + r.scheduled, scheduled := 0));
    PublishHolds(moved, k);
    var s1 := Publish(moved, k);
    if token.Some? {
      CompleteHolds(cfg, SetReq(s1, k, s1.pool, Append(s1.reqs[k], [token.value])), k);
    }
  }

  lemma CommitHolds(cfg: Config, s: Sys, k: nat, emitted: seq<Token>)
    requires k < |s.reqs| && s.pool.bs >= 1 && s.reqs[k].status == Running
    ensures HoldsKept(s.reqs, CommitOne(cfg, s, k, emitted).reqs)
  {
    hide TruncateTable, Publish, CompleteIfDone, BlocksNeededFor;
    var base := Strip(s.reqs[k]);
    var tokens := base.tokens + emitted;
    var keep := if tokens == [] then 0 else |tokens| - 1;
    var (p, r) := TruncateKv(s.pool, base.(tokens := tokens, computed := keep, scheduled := 0), keep);
    if p.bs != 0 {
      PublishHolds(SetReq(s, k, p, r), k);
      CompleteHolds(cfg, Publish(SetReq(s, k, p, r), k), k);
    }
  }

  lemma HoldsRefl(reqs: seq<Req>)
    ensures HoldsKept(reqs, reqs)
  {
  }

  lemma {:induction false} CommitAllHolds(net: Net, cfg: Config, s: Sys, ids: seq<nat>, others: seq<nat>)
    requires StepInv(net, s, ids + others) && SpecsReady(net, s, ids)
    ensures HoldsKept(s.reqs, E.CommitAll(cfg, s, ids, E.MapRefChoices(net, s, ids)).0.reqs)
    decreases |ids|
  {
    hide StepInv, SpecsReady, CommitOne, E.EmittedFor, HoldsKept, E.RefChoices;
    HoldsRefl(s.reqs);
    if ids != [] {
      assert ids[0..] == ids;
      var choices := E.MapRefChoices(net, s, ids);
      MapRefSize(net, s, ids);
      assert choices[0..] == choices;
      BurstStep(net, cfg, s, ids, choices, others, 0);
      PlannedHead(net, s, ids, others);
      var emitted := E.EmittedFor(cfg, s.reqs[ids[0]], choices[0]);
      CommitHolds(cfg, s, ids[0], emitted);
      var s1 := CommitOne(cfg, s, ids[0], emitted);
      CommitAllHolds(net, cfg, s1, ids[1..], others);
      HoldsTrans(s.reqs, s1.reqs, E.CommitAll(cfg, s1, ids[1..], choices[1..]).0.reqs);
    }
  }

  lemma PlannedHead(net: Net, s: Sys, ids: seq<nat>, others: seq<nat>)
    requires StepInv(net, s, ids + others) && ids != []
    ensures ids[0] < |s.reqs| && s.reqs[ids[0]].status == Running && s.pool.bs >= 1
  {
    hide KvInv, Queues, Shaped;
    KvShape(net, s);
    assert (ids + others)[0] == ids[0] && ids[0] in ids + others;
  }

  lemma {:induction false} PostAllHolds(net: Net, cfg: Config, s: Sys, ids: seq<nat>)
    requires StepInv(net, s, ids) && NormalsReady(net, s, ids)
    ensures HoldsKept(s.reqs, E.PostAll(cfg, s, ids, E.MapRefTokens(net, s, ids)).0.reqs)
    decreases |ids|
  {
    hide StepInv, NormalsReady, PostOne, HoldsKept, E.RefToken;
    HoldsRefl(s.reqs);
    if ids != [] {
      assert ids[0..] == ids && ids + [] == ids;
      var tokens := E.MapRefTokens(net, s, ids);
      MapTokensSize(net, s, ids);
      assert tokens[0..] == tokens;
      PostStep(net, cfg, s, ids, tokens, 0);
      PlannedHead(net, s, ids, []);
      PostHolds(cfg, s, ids[0], tokens[0]);
      var s1 := PostOne(cfg, s, ids[0], tokens[0]);
      PostAllHolds(net, cfg, s1, ids[1..]);
      HoldsTrans(s.reqs, s1.reqs, E.PostAll(cfg, s1, ids[1..], tokens[1..]).0.reqs);
    }
  }

  lemma BatchHolds(net: Net, cfg: Config, s: Sys, ids: seq<nat>)
    requires StepInv(net, s, ids)
    ensures HoldsKept(s.reqs, E.PagedBatch(net, cfg, s, ids).0.reqs)
  {
    hide StepInv, E.RunAll, E.CommitAll, E.PostAll, E.MapTokens, E.MapRefTokens, E.MapChoices, E.MapRefChoices, E.SpecIds, E.NormalIds, HoldsKept, SpecsReady, NormalsReady;
    BatchHalves(net, cfg, s, ids);
    var specs, normal := E.SpecIds(s, ids), E.NormalIds(s, ids);
    RanSpecs(net, s, specs, normal);
    RunAllReqs(net, s, specs);
    var s1 := E.RunAll(net, s, specs);
    CommitAllHolds(net, cfg, s1, specs, normal);
    var s2 := SpecResult(net, cfg, s, specs).0;
    RanNormals(net, s2, normal);
    RunAllReqs(net, s2, normal);
    PostAllHolds(net, cfg, E.RunAll(net, s2, normal), normal);
    HoldsTrans(s.reqs, s2.reqs, NormalResult(net, cfg, s2, normal).0.reqs);
  }

  /** A whole step: a held request that stops is paused, and a paused one stays as it is. */
  lemma StepHolds(net: Net, cfg: Config, propose: Proposer, s: Sys)
    requires SysInv(net, s)
    ensures var result := E.PagedStep(net, cfg, propose, s);
      result.Stepped? || result.Refused? ==> HoldsKept(s.reqs, result.s.reqs) && AllSteady(s.reqs, result.s.reqs)
  {
    hide SysInv, StepInv, ScheduleLoop, E.PagedBatch, Unanswered, AllSteady, HoldsKept;
    var bound := cfg.maxSeqs + |s.running| + |s.waiting| + 1;
    StepSteady(net, cfg, propose, s);
    ScheduleInvariant(net, cfg, propose, s, bound);
    ScheduleAsks(net, cfg, propose, s, bound);
    ScheduleSteady(net, cfg, propose, s, bound);
    var outcome := Schedule(cfg, propose, s);
    if outcome.Scheduled? {
      BatchHolds(net, cfg, outcome.s, outcome.ids);
      HoldsFrom(s.reqs, outcome.s.reqs, E.PagedBatch(net, cfg, outcome.s, outcome.ids).0.reqs);
    } else if outcome.Idle? || outcome.TooLarge? {
      HoldsRefl(outcome.s.reqs);
      HoldsFrom(s.reqs, outcome.s.reqs, outcome.s.reqs);
    }
  }

  lemma HoldsFrom(reqs: seq<Req>, mid: seq<Req>, reqs': seq<Req>)
    requires Unanswered(reqs, mid) && AllSteady(reqs, mid) && HoldsKept(mid, reqs')
    ensures HoldsKept(reqs, reqs')
  {
    forall k | 0 <= k < |reqs|
      ensures KeepsHold(reqs[k], reqs'[k]) && (reqs[k].status == Paused ==> reqs'[k].status == Paused)
    {
      assert SameAsk(Strip(reqs[k]), Strip(mid[k])) && St.Steady(reqs[k], mid[k]);
    }
  }

  // ----- the books -----

  /** A session is parked under exactly what its paused request holds. */
  predicate ParkedExact(s: Sys, x: Session) {
    x.id < |s.reqs| && s.reqs[x.id].status == Paused && s.reqs[x.id].tokens == x.tokens
  }

  /** What was submitted and what has been reported since is the whole history. */
  predicate InFlight(s: Sys, f: Flight) {
    && f.id < |s.reqs| && Live(s.reqs[f.id]) && s.reqs[f.id].hold
    && s.reqs[f.id].tokens == f.ids + f.turn
  }

  /** The same for a turn that is over and not yet parked. */
  predicate Landed(s: Sys, f: Flight) {
    f.id < |s.reqs| && s.reqs[f.id].status == Paused && s.reqs[f.id].tokens == f.ids + f.turn
  }

  ghost predicate Apart(held: seq<Session>, flights: seq<Flight>) {
    && Separate(flights)
    && (forall x, f :: x in held && f in flights ==> x.id != f.id)
  }

  ghost predicate Books(s: Sys, held: seq<Session>, flights: seq<Flight>, landed: seq<Flight>) {
    && (forall x :: x in held ==> ParkedExact(s, x))
    && (forall f :: f in flights ==> InFlight(s, f))
    && (forall f :: f in landed ==> Landed(s, f))
    && Apart(held, landed + flights)
  }

  /** The other requests are as before, and no history changed. */
  predicate OthersSame(s: Sys, s': Sys, k: nat) {
    |s'.reqs| >= |s.reqs| && forall j :: 0 <= j < |s.reqs| && j != k ==> s'.reqs[j] == s.reqs[j]
  }

  lemma BooksOthers(s: Sys, s': Sys, k: nat, held: seq<Session>, flights: seq<Flight>, landed: seq<Flight>)
    requires Books(s, held, flights, landed) && OthersSame(s, s', k)
    requires (forall x :: x in held ==> x.id != k) && (forall f :: f in landed + flights ==> f.id != k)
    ensures Books(s', held, flights, landed)
  {
    assert forall f :: f in landed || f in flights ==> f in landed + flights;
  }

  lemma BooksTakeOff(s: Sys, held: seq<Session>, flights: seq<Flight>, landed: seq<Flight>, f: Flight)
    requires Books(s, held, flights, landed) && InFlight(s, f)
    requires (forall x :: x in held ==> x.id != f.id) && (forall g :: g in landed + flights ==> g.id != f.id)
    ensures Books(s, held, flights + [f], landed)
  {
    var all, before := landed + (flights + [f]), landed + flights;
    assert all == before + [f];
    assert forall g :: g in all <==> g in before || g == f;
    assert forall i :: 0 <= i < |before| ==> before[i] in before;
  }

  lemma BooksFewer(s: Sys, held: seq<Session>, held': seq<Session>, flights: seq<Flight>, landed: seq<Flight>)
    requires Books(s, held, flights, landed) && forall x :: x in held' ==> x in held
    ensures Books(s, held', flights, landed)
  {
  }

  /** A landed turn goes on the books under its whole history. */
  lemma BooksPark(s: Sys, held: seq<Session>, flights: seq<Flight>, landed: seq<Flight>, f: Flight, x: Session, all: seq<Session>)
    requires Books(s, held, flights, [f] + landed) && x.id == f.id && x.tokens == f.ids + f.turn
    requires forall y :: y in all ==> y == x || y in held
    ensures Books(s, all, flights, landed)
  {
    var before, after := [f] + landed + flights, landed + flights;
    assert before == [f] + after;
    assert forall g :: g in after ==> g in before;
    assert forall i :: 0 <= i < |after| ==> before[i + 1] == after[i];
    assert before[0] == f && f in [f] + landed;
    forall y, g | y in all && g in after
      ensures y.id != g.id
    {
      if y == x {
        var i :| 0 <= i < |after| && after[i] == g;
        assert before[0].id != before[i + 1].id;
      }
    }
  }

  lemma {:induction false} RegisteredMembers(held: seq<Session>, x: Session)
    ensures forall y :: y in Registered(held, x) ==> y == x || y in held
    ensures x in Registered(held, x)
  {
    if held != [] && held[0].id != x.id {
      RegisteredMembers(held[1..], x);
    }
  }

  // ----- harvesting a step -----

  function Extended(f: Flight, emitted: seq<E.Emission>): Flight {
    f.(turn := f.turn + Harvest(emitted, f.id))
  }

  function Flying(s: Sys, flights: seq<Flight>, emitted: seq<E.Emission>): seq<Flight> {
    if flights == [] then []
    else
      var n := |flights| - 1;
      Flying(s, flights[..n], emitted) + if flights[n].id < |s.reqs| && Live(s.reqs[flights[n].id]) then [Extended(flights[n], emitted)] else []
  }

  function Down(s: Sys, flights: seq<Flight>, emitted: seq<E.Emission>): seq<Flight> {
    if flights == [] then []
    else
      var n := |flights| - 1;
      Down(s, flights[..n], emitted) + if flights[n].id < |s.reqs| && Live(s.reqs[flights[n].id]) then [] else [Extended(flights[n], emitted)]
  }

  ghost predicate FromFlights(flights: seq<Flight>, emitted: seq<E.Emission>, g: Flight) {
    exists f :: f in flights && g == Extended(f, emitted)
  }

  lemma {:induction false} HarvestedFrom(s: Sys, flights: seq<Flight>, emitted: seq<E.Emission>)
    ensures forall g :: g in Flying(s, flights, emitted) ==> FromFlights(flights, emitted, g) && g.id < |s.reqs| && Live(s.reqs[g.id])
    ensures forall g :: g in Down(s, flights, emitted) ==> FromFlights(flights, emitted, g) && !(g.id < |s.reqs| && Live(s.reqs[g.id]))
  {
    if flights != [] {
      var n := |flights| - 1;
      HarvestedFrom(s, flights[..n], emitted);
      assert forall f :: f in flights[..n] ==> f in flights;
      assert flights[n] in flights;
    }
  }

  ghost predicate Separate(flights: seq<Flight>) {
    forall i, j :: 0 <= i < j < |flights| ==> flights[i].id != flights[j].id
  }

  lemma SeparateAppend(flights: seq<Flight>, f: Flight)
    requires Separate(flights) && forall g :: g in flights ==> g.id != f.id
    ensures Separate(flights + [f])
  {
    assert forall i :: 0 <= i < |flights| ==> flights[i] in flights;
  }

  lemma SeparateInit(flights: seq<Flight>)
    requires Separate(flights) && flights != []
    ensures Separate(flights[..|flights| - 1])
    ensures forall f :: f in flights[..|flights| - 1] ==> f in flights && f.id != flights[|flights| - 1].id
  {
  }

  lemma SeparateConcat(a: seq<Flight>, b: seq<Flight>)
    requires Separate(a) && Separate(b) && forall f, g :: f in a && g in b ==> f.id != g.id
    ensures Separate(a + b)
  {
    forall i, j | 0 <= i < j < |a + b|
      ensures (a + b)[i].id != (a + b)[j].id
    {
      assert i < |a| <= j ==> a[i] in a && b[j - |a|] in b;
    }
  }

  lemma {:induction false} HarvestedSeparate(s: Sys, flights: seq<Flight>, emitted: seq<E.Emission>)
    requires Separate(flights)
    ensures Separate(Down(s, flights, emitted)) && Separate(Flying(s, flights, emitted))
  {
    hide Separate;
    if flights == [] {
      EmptySeparate();
    } else {
      var n := |flights| - 1;
      SeparateInit(flights);
      HarvestedSeparate(s, flights[..n], emitted);
      HarvestedFrom(s, flights[..n], emitted);
      if flights[n].id < |s.reqs| && Live(s.reqs[flights[n].id]) {
        SeparateAppend(Flying(s, flights[..n], emitted), Extended(flights[n], emitted));
        assert Down(s, flights, emitted) == Down(s, flights[..n], emitted);
      } else {
        SeparateAppend(Down(s, flights[..n], emitted), Extended(flights[n], emitted));
        assert Flying(s, flights, emitted) == Flying(s, flights[..n], emitted);
      }
    }
  }

  lemma EmptySeparate()
    ensures Separate([])
  {
  }

  lemma HarvestedApart(s: Sys, flights: seq<Flight>, emitted: seq<E.Emission>)
    requires Separate(flights)
    ensures Separate(Down(s, flights, emitted) + Flying(s, flights, emitted))
  {
    hide Down, Flying, Separate;
    HarvestedFrom(s, flights, emitted);
    HarvestedSeparate(s, flights, emitted);
    SeparateConcat(Down(s, flights, emitted), Flying(s, flights, emitted));
  }

  /** After a step every turn is still in flight or has landed, with everything the step
      reported for it; parked sessions have not moved. */
  lemma BooksStep(net: Net, cfg: Config, s: Sys, s': Sys, held: seq<Session>, flights: seq<Flight>, emitted: seq<E.Emission>)
    requires SysInv(net, s) && SysInv(net, s') && Books(s, held, flights, [])
    requires Answered(net, cfg.eos, s.reqs, s'.reqs, emitted) && HoldsKept(s.reqs, s'.reqs) && St.AllSteady(s.reqs, s'.reqs)
    ensures Books(s', held, Flying(s', flights, emitted), Down(s', flights, emitted))
  {
    hide SysInv, Flying, Down;
    NoDrafts(net, s);
    NoDrafts(net, s');
    HarvestedFrom(s', flights, emitted);
    assert [] + flights == flights;
    HarvestedApart(s', flights, emitted);
    forall g | FromFlights(flights, emitted, g)
      ensures g.id < |s'.reqs| && s'.reqs[g.id].tokens == g.ids + g.turn && s'.reqs[g.id].hold
      ensures Live(s'.reqs[g.id]) || s'.reqs[g.id].status == Paused
    {
      var f :| f in flights && g == Extended(f, emitted);
      assert InFlight(s, f);
      assert Strip(s'.reqs[f.id]).tokens == Strip(s.reqs[f.id]).tokens + Harvest(emitted, f.id);
      assert KeepsHold(s.reqs[f.id], s'.reqs[f.id]);
    }
    forall x | x in held
      ensures ParkedExact(s', x)
    {
      assert St.Steady(s.reqs[x.id], s'.reqs[x.id]);
    }
    var down, fly := Down(s', flights, emitted), Flying(s', flights, emitted);
    forall x: Session, g: Flight | x in held && g in down + fly
      ensures x.id != g.id
    {
      assert FromFlights(flights, emitted, g);
    }
  }

  lemma NoDrafts(net: Net, s: Sys)
    requires SysInv(net, s)
    ensures forall k :: 0 <= k < |s.reqs| ==> s.reqs[k].draft == 0
  {
    hide KvInv, Queues, BlocksNeededFor;
    KvShape(net, s);
    assert forall k: nat :: k < |s.reqs| ==> Shaped(s.pool.bs, |s.pool.ref|, s.reqs[k]);
  }

  /** What one engine step emitted. */
  ghost predicate Reported(net: Net, cfg: Config, propose: Proposer, s: Sys, emitted: seq<E.Emission>) {
    E.PagedStep(net, cfg, propose, s).Stepped? && E.PagedStep(net, cfg, propose, s).emitted == emitted
  }

  /** A refused step has changed no history and stopped nobody. */
  lemma RefusedBooks(net: Net, cfg: Config, propose: Proposer, s: Sys, held: seq<Session>, flights: seq<Flight>)
    requires SysInv(net, s) && E.PagedStep(net, cfg, propose, s).Refused? && Books(s, held, flights, [])
    ensures Books(E.PagedStep(net, cfg, propose, s).s, held, flights, [])
  {
    hide SysInv, ScheduleLoop, E.PagedBatch, Books, Unanswered, St.AllSteady;
    var bound := cfg.maxSeqs + |s.running| + |s.waiting| + 1;
    ScheduleInvariant(net, cfg, propose, s, bound);
    ScheduleAsks(net, cfg, propose, s, bound);
    ScheduleSteady(net, cfg, propose, s, bound);
    var s' := Schedule(cfg, propose, s).s;
    NoDrafts(net, s);
    NoDrafts(net, s');
    BooksUnasked(s, s', held, flights);
  }

  lemma BooksUnasked(s: Sys, s': Sys, held: seq<Session>, flights: seq<Flight>)
    requires Books(s, held, flights, []) && Unanswered(s.reqs, s'.reqs) && St.AllSteady(s.reqs, s'.reqs)
    requires (forall k :: 0 <= k < |s.reqs| ==> s.reqs[k].draft == 0) && (forall k :: 0 <= k < |s'.reqs| ==> s'.reqs[k].draft == 0)
    ensures Books(s', held, flights, [])
  {
    hide Apart;
    forall f | f in flights
      ensures InFlight(s', f)
    {
      assert SameAsk(Strip(s.reqs[f.id]), Strip(s'.reqs[f.id]));
    }
    forall x | x in held
      ensures ParkedExact(s', x)
    {
      assert St.Steady(s.reqs[x.id], s'.reqs[x.id]);
    }
  }

  lemma LandedInRange(s: Sys, held: seq<Session>, flights: seq<Flight>, landed: seq<Flight>, f: Flight)
    requires Books(s, held, flights, [f] + landed)
    ensures f.id < |s.reqs|
  {
    assert f in [f] + landed;
  }

  /** The books after a landed turn was registered and older sessions were retired. */
  lemma ParkedBooks(s: Sys, held: seq<Session>, held': seq<Session>, flights: seq<Flight>, landed: seq<Flight>, f: Flight, x: Session, gone: seq<nat>)
    requires Books(s, held, flights, [f] + landed) && x.id == f.id && x.tokens == f.ids + f.turn
    requires Evicted(Registered(held, x), {}, held', gone)
    ensures Books(s, held', flights, landed)
    ensures forall id :: id in gone ==> (forall y :: y in held' ==> y.id != id) && (forall g :: g in landed + flights ==> g.id != id)
  {
    hide Books;
    RegisteredMembers(held, x);
    BooksPark(s, held, flights, landed, f, x, Registered(held, x));
    BooksFewer(s, Registered(held, x), held', flights, landed);
    GoneElsewhere(s, Registered(held, x), held', flights, landed, gone);
  }

  lemma GoneElsewhere(s: Sys, all: seq<Session>, held': seq<Session>, flights: seq<Flight>, landed: seq<Flight>, gone: seq<nat>)
    requires Books(s, all, flights, landed) && Evicted(all, {}, held', gone)
    ensures forall id :: id in gone ==> (forall y :: y in held' ==> y.id != id) && (forall g :: g in landed + flights ==> g.id != id)
  {
    forall id | id in gone
      ensures (forall y :: y in held' ==> y.id != id) && (forall g :: g in landed + flights ==> g.id != id)
    {
      assert HasId(all, id) && !HasId(held', id);
      var x :| x in all && x.id == id;
    }
  }

  lemma BooksDropFirst(s: Sys, s': Sys, held: seq<Session>, flights: seq<Flight>)
    requires Books(s, held, flights, []) && flights != [] && OthersSame(s, s', flights[0].id)
    ensures Books(s', held, flights[1..], [])
  {
    assert [] + flights == flights && [] + flights[1..] == flights[1..];
    assert flights[0] in flights;
    forall f | f in flights[1..]
      ensures f in flights && f.id != flights[0].id
    {
    }
  }

  // ----- other changes to the engine -----

  lemma ReleaseOthers(net: Net, s: Sys, k: nat)
    requires SysInv(net, s)
    ensures SysInv(net, Release(s, k)) && OthersSame(s, Release(s, k), k) && Release(s, k).pool.bs == s.pool.bs
    ensures |Release(s, k).reqs| == |s.reqs|
  {
    hide SysInv, DecrefAll, Without;
    ReleaseInv(net, s, k);
  }

  lemma ResumeOthersSame(s: Sys, k: nat, suffix: seq<Token>, q: Params)
    requires s.pool.bs >= 1
    ensures var resumed := Resume(s, k, suffix, q.maxTokens, q.hold, q.policy, q.stops, q.ignoreEos);
      resumed.Some? ==>
        && OthersSame(s, resumed.value, k) && k < |s.reqs| == |resumed.value.reqs| && suffix != []
        && resumed.value.reqs[k].tokens == s.reqs[k].tokens + suffix && Live(resumed.value.reqs[k])
        && resumed.value.reqs[k].hold == q.hold && resumed.value.mem == s.mem
        && resumed.value.reqs[k].computed == s.reqs[k].computed && resumed.value.reqs[k].table == s.reqs[k].table
  {
    hide BlocksNeededFor;
  }

  lemma AddOthersSame(s: Sys, ids: seq<Token>, q: Params)
    requires s.pool.bs >= 1
    ensures var added := AddRequest(s, NewRequest(ids, q));
      added.Some? ==>
        && |added.value.reqs| == |s.reqs| + 1 && OthersSame(s, added.value, |s.reqs|)
        && added.value.reqs[|s.reqs|].tokens == ids && Live(added.value.reqs[|s.reqs|]) && added.value.reqs[|s.reqs|].hold == q.hold
  {
    hide AttachLoop, BlocksNeededFor;
  }

  // ----- moving KV about -----

  /** Blocks may have moved and parked KV may be elsewhere or gone; no session has changed, and
      nothing at all about a request that is not parked. */
  ghost predicate SameTurns(s: Sys, s': Sys) {
    && |s'.reqs| == |s.reqs| && s'.waiting == s.waiting && s'.running == s.running && s'.pool.bs == s.pool.bs
    && forall k: nat :: k < |s.reqs| ==> G.SameSession(s.reqs[k], s'.reqs[k]) && (s.reqs[k].status != Paused ==> s'.reqs[k] == s.reqs[k])
  }

  lemma SameTurnsRefl(s: Sys)
    ensures SameTurns(s, s)
  {
  }

  lemma SameTurnsTrans(a: Sys, b: Sys, c: Sys)
    requires SameTurns(a, b) && SameTurns(b, c)
    ensures SameTurns(a, c)
  {
  }

  lemma BooksSameTurns(s: Sys, s': Sys, held: seq<Session>, flights: seq<Flight>, landed: seq<Flight>)
    requires Books(s, held, flights, landed) && SameTurns(s, s')
    ensures Books(s', held, flights, landed)
  {
    hide Apart;
  }

  lemma CachedTurns(t: O.Tiered, minFree: nat)
    ensures SameTurns(t.s, G.ReclaimCached(t, minFree).s)
  {
    hide EvictUnused;
    EvictFrame(t.s.pool, minFree - |t.s.pool.free|);
  }

  lemma GroupTurns(t: O.Tiered, g: G.Group, group: seq<nat>, minFree: nat)
    requires G.GroupOutcome(t, g, group, minFree) && G.Kept(t, g.t)
    ensures SameTurns(t.s, g.t.s)
  {
  }

  lemma DropTurns(h: O.HostConfig, t: O.Tiered, k: nat)
    requires k < |t.s.reqs| && t.s.reqs[k].status == Paused
    ensures SameTurns(t.s, M.DropTiered(h, t, k).s)
  {
    hide DecrefAll;
    DecrefAllFrame(t.s.pool, t.s.reqs[k].table);
  }

  lemma FinishOthers(net: Net, h: O.HostConfig, t: O.Tiered, k: nat)
    requires SysInv(net, t.s)
    ensures var t' := T.FinishTiered(h, t, k); OthersSame(t.s, t'.s, k) && |t'.s.reqs| == |t.s.reqs|
  {
    hide SysInv, Release, O.Forget;
    ReleaseOthers(net, t.s, k);
  }

  // ----- resuming -----

  lemma RestoreSession(h: O.HostConfig, t: O.Tiered, k: nat, snap: O.Snap, copyFails: bool)
    requires k < |t.s.reqs| && t.s.pool.bs >= 1
    ensures var s1 := O.RestoreSnap(h, t, k, snap, copyFails).0; k < |s1.reqs| && G.SameSession(t.s.reqs[k], s1.reqs[k])
  {
    hide Restore.DeviceHits, Restore.RebuildTable, Transfer.Imported, Restore.Pins, PlainRestore.PlainTable;
    Restore.PinsCount(Restore.DeviceHits(t.s.pool, t.s.reqs[k].tokens, snap.valid, |snap.buffer|));
  }

  /** The request goes on with the KV it had: on the device as it stood, or back from its
      snapshot entry by entry. */
  ghost predicate Continued(net: Net, t: O.Tiered, t': O.Tiered, k: nat, ids: seq<Token>) {
    && k < |t.s.reqs| && k < |t'.s.reqs|
    && var r, r' := t.s.reqs[k], t'.s.reqs[k];
      && r'.tokens == ids && Live(r') && Holds(net, t'.s.mem, r'.table, ids, r'.computed)
      && if r.residency != OnCpu then r'.computed == r.computed && r'.table == r.table else FromSnapshot(t, t', k, O.Find(t.books.snaps, k))
  }

  ghost predicate FromSnapshot(t: O.Tiered, t': O.Tiered, k: nat, found: Option<O.Snap>)
    requires k < |t.s.reqs| && k < |t'.s.reqs|
  {
    && found.Some? && found.value.tokens == t.s.reqs[k].tokens && t'.s.reqs[k].computed == found.value.valid
    && O.SameAsSaved(t'.s.mem, t'.s.reqs[k].table, found.value)
  }

  lemma LiveHolds(net: Net, s: Sys, k: nat)
    requires SysInv(net, s) && k < |s.reqs|
    ensures Holds(net, s.mem, s.reqs[k].table, s.reqs[k].tokens, s.reqs[k].computed)
  {
    hide SysInv, Local, Holds, Rest;
    O.KvOf(net, s);
    At(net, s, k);
    O.LocalHolds(net, s.pool, s.mem, Rest(s.reqs, k), s.reqs[k]);
  }

  /** A refused resume has disturbed nobody: whatever was restored has been released again. */
  lemma RefusedTurns(net: Net, h: O.HostConfig, t: O.Tiered, k: nat, suffix: seq<Token>, q: Params, copyFails: bool)
    requires O.TierInv(net, h, t) && t.s.pool.bs >= 1
    ensures var (t', why) := M.ResumeOutcome(h, t, k, suffix, q, copyFails); why != M.Resumed ==> SameTurns(t.s, t'.s)
  {
    hide O.TierInv, O.Find, O.Forget, M.RestoreAndResume, Resume;
    SameTurnsRefl(t.s);
    if k < |t.s.reqs| && t.s.reqs[k].residency == OnCpu {
      O.ResidentIff(net, h, t, k);
      var snap := O.Find(t.books.snaps, k).value;
      O.SnapOwner(net, t, snap);
      if !M.IsStale(t, snap, t.s.reqs[k]) {
        RefusedRestore(net, h, t, k, snap, suffix, q, copyFails);
      }
    }
  }

  lemma RefusedRestore(net: Net, h: O.HostConfig, t: O.Tiered, k: nat, snap: O.Snap, suffix: seq<Token>, q: Params, copyFails: bool)
    requires O.TierInv(net, h, t) && t.s.pool.bs >= 1 && k < |t.s.reqs| && snap in t.books.snaps && snap.owner == k && O.SnapGood(net, t, snap)
    requires snap.bs == t.s.pool.bs
    ensures var (t', why) := M.RestoreAndResume(h, t, k, snap, suffix, q, copyFails); why != M.Resumed ==> SameTurns(t.s, t'.s)
  {
    hide O.TierInv, O.RestoreSnap, O.AddUse, Resume, DecrefAll, SysInv, O.SameAsSaved, Restore.RolledBack, Rest;
    O.RestoreSnapInv(net, h, t, k, snap, copyFails);
    RestoreSession(h, t, k, snap, copyFails);
    var s1 := O.RestoreSnap(h, t, k, snap, copyFails).0;
    DecrefAllFrame(s1.pool, s1.reqs[k].table);
  }

  /** A granted resume puts exactly the suffix onto the session's history and its KV back. */
  lemma ResumedTurn(net: Net, h: O.HostConfig, t: O.Tiered, k: nat, suffix: seq<Token>, q: Params, copyFails: bool)
    requires O.TierInv(net, h, t) && t.s.pool.bs >= 1
    ensures var (t', why) := M.ResumeOutcome(h, t, k, suffix, q, copyFails);
      why == M.Resumed ==>
        && k < |t.s.reqs| == |t'.s.reqs| && OthersSame(t.s, t'.s, k) && t'.s.reqs[k].hold == q.hold
        && Continued(net, t, t', k, t.s.reqs[k].tokens + suffix)
  {
    hide O.TierInv, O.Find, O.Forget, M.RestoreAndResume, Resume, OthersSame, Holds, O.ResumeTiered, SysInv;
    var (t', why) := M.ResumeOutcome(h, t, k, suffix, q, copyFails);
    if why == M.Resumed {
      O.ResumeTieredInv(net, h, t, k, suffix, q, copyFails);
      M.ResumeOutcomeIs(h, t, k, suffix, q, copyFails);
      O.TierSys(net, h, t');
      if t.s.reqs[k].residency != OnCpu {
        ResumeOthersSame(t.s, k, suffix, q);
      } else {
        var snap := O.Find(t.books.snaps, k).value;
        O.ResidentIff(net, h, t, k);
        O.SnapOwner(net, t, snap);
        ResumedRestore(net, h, t, k, snap, suffix, q, copyFails);
      }
      LiveHolds(net, t'.s, k);
    }
  }

  lemma ResumedRestore(net: Net, h: O.HostConfig, t: O.Tiered, k: nat, snap: O.Snap, suffix: seq<Token>, q: Params, copyFails: bool)
    requires O.TierInv(net, h, t) && t.s.pool.bs >= 1 && k < |t.s.reqs| && snap in t.books.snaps && snap.owner == k && O.SnapGood(net, t, snap)
    requires snap.bs == t.s.pool.bs
    ensures var (t', why) := M.RestoreAndResume(h, t, k, snap, suffix, q, copyFails);
      why == M.Resumed ==>
        && |t'.s.reqs| == |t.s.reqs| && OthersSame(t.s, t'.s, k) && t'.s.reqs[k].hold == q.hold && Live(t'.s.reqs[k])
        && t'.s.reqs[k].tokens == t.s.reqs[k].tokens + suffix && FromSnapshot(t, t', k, Some(snap))
  {
    hide O.TierInv, O.RestoreSnap, O.AddUse, Resume, DecrefAll, SysInv, O.SameAsSaved, Restore.RolledBack, Rest;
    O.RestoreSnapInv(net, h, t, k, snap, copyFails);
    var (s1, ok, _) := O.RestoreSnap(h, t, k, snap, copyFails);
    if ok {
      ResumeOthersSame(s1, k, suffix, q);
    }
  }

  function Holding(held: seq<Session>): nat {
    if held == [] then 0 else (if held[0].blocks > 0 then 1 else 0) + Holding(held[1..])
  }

  lemma {:induction false} HoldingLess(held: seq<Session>, held': seq<Session>, i: nat)
    requires i < |held| == |held'| && held[i].blocks > 0 && held'[i].blocks == 0
    requires forall j :: 0 <= j < |held| ==> held'[j].blocks == held[j].blocks || held'[j].blocks == 0
    ensures Holding(held') < Holding(held)
  {
    if i == 0 {
      HoldingNoMore(held[1..], held'[1..]);
    } else {
      HoldingLess(held[1..], held'[1..], i - 1);
    }
  }

  lemma {:induction false} HoldingNoMore(held: seq<Session>, held': seq<Session>)
    requires |held| == |held'| && forall j :: 0 <= j < |held| ==> held'[j].blocks == held[j].blocks || held'[j].blocks == 0
    ensures Holding(held') <= Holding(held)
  {
    if held != [] {
      HoldingNoMore(held[1..], held'[1..]);
    }
  }

  lemma BestIsExact(held: seq<Session>, ids: seq<Token>, i: nat)
    requires i < |held| && BestAmong(held, {}, ids, i, |held|)
    ensures var c := ClaimOf(held[i], ids); held[i].tokens + c.suffix == ids && c.id == held[i].id && c.shared == |held[i].tokens|
  {
    ClaimIsExact(held[i], {}, ids);
  }

  lemma ApartFlights(s: Sys, held: seq<Session>, flights: seq<Flight>, x: Session)
    requires Books(s, held, flights, []) && x in held
    ensures forall f :: f in flights ==> f.id != x.id
  {
    assert [] + flights == flights;
  }

  lemma OnlyOne(held: seq<Session>, tokens: seq<Token>)
    ensures ExactlyOne(held, tokens) ==> exists s :: s in held && s.tokens == tokens
  {
    if ExactlyOne(held, tokens) {
      var i :| 0 <= i < |held| && held[i].tokens == tokens;
      assert held[i] in held;
    }
  }

  lemma OnlyThat(clock: nat, held: seq<Session>, tokens: seq<Token>, x: Session)
    requires ExactlyOne(held, tokens) && x in held && x.tokens == tokens
    requires Known(held, clock, {})
    ensures forall y :: y in held ==> (y.id == x.id <==> y.tokens == tokens)
  {
    var i :| 0 <= i < |held| && held[i].tokens == tokens && forall j :: 0 <= j < |held| && j != i ==> held[j].tokens != tokens;
    forall y | y in held
      ensures y.id == x.id <==> y.tokens == tokens
    {
      var j :| 0 <= j < |held| && held[j] == y;
      var k :| 0 <= k < |held| && held[k] == x;
      assert k == i;
    }
  }

  lemma HeldExact(s: Sys, held: seq<Session>, flights: seq<Flight>, landed: seq<Flight>, x: Session)
    requires Books(s, held, flights, landed) && x in held
    ensures ParkedExact(s, x)
  {
  }

  lemma BooksContinue(s: Sys, s': Sys, held: seq<Session>, held': seq<Session>, flights: seq<Flight>, x: Session, f: Flight)
    requires Books(s, held, flights, []) && OthersSame(s, s', f.id) && x in held && x.id == f.id && InFlight(s', f)
    requires forall y :: y in held' <==> y in held && y.id != f.id
    ensures Books(s', held', flights + [f], [])
  {
    hide InFlight, ParkedExact, Separate;
    assert [] + flights == flights;
    BooksFewer(s, held, held', flights, []);
    BooksOthers(s, s', f.id, held', flights, []);
    BooksTakeOff(s', held', flights, [], f);
  }

  lemma BooksStart(s: Sys, s': Sys, held: seq<Session>, flights: seq<Flight>, f: Flight)
    requires Books(s, held, flights, []) && f.id == |s.reqs| && OthersSame(s, s', f.id) && InFlight(s', f)
    ensures Books(s', held, flights + [f], [])
  {
    hide Separate;
    assert [] + flights == flights;
    BooksOthers(s, s', f.id, held, flights, []);
    BooksTakeOff(s', held, flights, [], f);
  }
}

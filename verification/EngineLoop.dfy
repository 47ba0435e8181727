/** The engine's step as the loop it is: schedule, run and verify the speculative requests, run
    and sample the rest.  What it emits is what the recompute-from-token-0 runner emits. */
module EngineLoop {
  import opened Kv
  import opened BlockPool
  import opened Requests
  import opened Ownership
  import opened OwnershipSteps
  import opened SpecDecode
  import opened System
  import opened SystemInv
  import opened ScheduleInv
  import E = Engine
  import R = Runs
  import opened BlockManagers
  import opened Schedulers

  /** A request as the offload hook sees it after the forward pass. */
  datatype Row = Row(id: nat, req: Req)

  function Rows(reqs: seq<Req>, ids: seq<nat>): (rows: seq<Row>)
    ensures |rows| <= |ids|
  {
    if ids == [] then [] else (if ids[0] < |reqs| then [Row(ids[0], reqs[ids[0]])] else []) + Rows(reqs, ids[1..])
  }

  /** The ordinary rows of the step that is taken from here. */
  ghost function StepRows(cfg: Config, propose: Proposer, s: Sys): seq<Row> {
    match Schedule(cfg, propose, s)
    case Scheduled(mid, ids) => Rows(mid.reqs, E.NormalIds(mid, ids))
    case _ => []
  }

  lemma OneRow(reqs: seq<Req>, k: nat)
    requires k < |reqs|
    ensures Rows(reqs, [k]) == [Row(k, reqs[k])]
  {
    var none: seq<nat> := [];
    assert [k][1..] == none && Rows(reqs, none) == [];
    assert [Row(k, reqs[k])] + [] == [Row(k, reqs[k])];
  }

  lemma RowsUnfold(reqs: seq<Req>, ids: seq<nat>, i: nat)
    requires i < |ids| && ids[i] < |reqs|
    ensures Rows(reqs, ids[..i + 1]) == Rows(reqs, ids[..i]) + [Row(ids[i], reqs[ids[i]])]
  {
    hide Rows;
    RowsConcat(reqs, ids[..i], [ids[i]]);
    OneRow(reqs, ids[i]);
    assert ids[..i + 1] == ids[..i] + [ids[i]];
  }

  lemma {:induction false} RowsConcat(reqs: seq<Req>, a: seq<nat>, b: seq<nat>)
    ensures Rows(reqs, a + b) == Rows(reqs, a) + Rows(reqs, b)
  {
    if a == [] {
      assert a + b == b;
    } else {
      assert (a + b)[1..] == a[1..] + b;
      RowsConcat(reqs, a[1..], b);
    }
  }

  lemma {:induction false} RowsSame(reqs: seq<Req>, reqs': seq<Req>, ids: seq<nat>)
    requires |reqs'| == |reqs| && forall k :: k in ids && k < |reqs| ==> reqs'[k] == reqs[k]
    ensures Rows(reqs', ids) == Rows(reqs, ids)
  {
    if ids != [] {
      assert ids[0] in ids && forall k :: k in ids[1..] ==> k in ids;
      RowsSame(reqs, reqs', ids[1..]);
    }
  }

  class Engine {
    const scheduler: Scheduler
    var net: Net
    var lastEmitted: seq<E.Emission>
    var lastRun: seq<Row>

    constructor (scheduler: Scheduler, net: Net)
      ensures this.scheduler == scheduler && this.net == net && lastEmitted == [] && lastRun == []
    {
      this.scheduler, this.net, lastEmitted, lastRun := scheduler, net, [], [];
    }

    function State(): Sys
      reads scheduler, scheduler.reqs, scheduler.manager, scheduler.manager.cache, scheduler.kv
    {
      scheduler.State()
    }

    // ----- the forward pass -----

    method RunRequest(k: nat, ghost ids: seq<nat>)
      requires scheduler.Valid() && StepInv(net, State(), ids) && k in ids
      modifies scheduler.kv
      ensures State() == E.RunOne(net, old(State()), k)
    {
      hide StepInv, Forward, States;
      RunnableRow(net, State(), ids, k);
      var r := scheduler.reqs[k].state;
      scheduler.kv.RunRows(net, scheduler.manager.bs, r.table, r.tokens, r.computed, r.computed + r.scheduled);
    }

    method RunRequests(run: seq<nat>, ghost ids: seq<nat>)
      requires scheduler.Valid() && StepInv(net, State(), ids) && forall k :: k in run ==> k in ids
      modifies scheduler.kv
      ensures State() == E.RunAll(net, old(State()), run)
    {
      hide StepInv, E.RunOne, States, E.RunAll, State;
      assert run[0..] == run;
      var i := 0;
      while i < |run|
        invariant 0 <= i <= |run| && StepInv(net, State(), ids)
        invariant E.RunAll(net, State(), run[i..]) == E.RunAll(net, old(State()), run)
      {
        RunAllUnfolds(net, State(), run, i);
        E.RunOneInv(net, State(), ids, run[i]);
        RunRequest(run[i], ids);
        i := i + 1;
      }
      RunAllUnfolds(net, State(), run, i);
    }

    /** The row of position `end - 1`: the target's choice after the first `end` tokens. */
    method ReadRow(k: nat, end: nat) returns (token: Token)
      requires E.Ready(net, State(), k) && State().pool.bs >= 1 && MemoryShape(State().mem, State().pool.bs)
      requires end <= State().reqs[k].computed + State().reqs[k].scheduled
      ensures token == E.PagedPick(net, State(), k, end)
    {
      hide Flat, RefCells, States;
      ReadableRow(net, State(), k, end);
      var r := scheduler.reqs[k].state;
      var context := scheduler.kv.Gather(scheduler.manager.bs, r.table, end);
      token := net.pick(context, r.tokens[..end], r.policy);
    }

    // ----- the speculative half -----

    /** The logits of one speculative request: the target's choice at each of its rows. */
    method ReadRows(k: nat) returns (choices: seq<Token>)
      requires E.Ready(net, State(), k) && State().pool.bs >= 1 && MemoryShape(State().mem, State().pool.bs)
      requires State().reqs[k].scheduled == State().reqs[k].draft + 1
      ensures choices == E.PagedChoices(net, State(), k)
    {
      hide E.PagedPick, States, Holds;
      choices := [];
      for j := 0 to scheduler.reqs[k].state.draft + 1
        invariant choices == E.PagedChoices(net, State(), k)[..j]
      {
        var token := ReadRow(k, scheduler.reqs[k].state.computed + 1 + j);
        choices := choices + [token];
      }
    }

    method ReadAllRows(specs: seq<nat>, ghost others: seq<nat>) returns (choices: seq<seq<Token>>)
      requires StepInv(net, State(), specs + others)
      requires SpecsReady(net, State(), specs)
      ensures choices == E.MapChoices(net, State(), specs)
    {
      hide *;
      choices := [];
      var i := 0;
      assert specs[0..] == specs;
      while i < |specs|
        invariant 0 <= i <= |specs|
        invariant choices + E.MapChoices(net, State(), specs[i..]) == E.MapChoices(net, State(), specs)
      {
        MapChoicesUnfolds(net, State(), specs, i);
        SpecRow(net, State(), specs, others, specs[i]);
        var rows := ReadRows(specs[i]);
        choices := choices + [rows];
        i := i + 1;
      }
      MapChoicesUnfolds(net, State(), specs, i);
    }

    /** `verify_request`, then `commit_spec` and completion. */
    method VerifyAndCommit(k: nat, choices: seq<Token>) returns (emitted: seq<Token>)
      requires scheduler.Valid() && k < |scheduler.reqs| && scheduler.manager.bs >= 1
      requires |choices| == |E.DraftTokens(scheduler.reqs[k].state)| + 1
      modifies scheduler`waiting, scheduler`running, scheduler.manager, scheduler.manager.cache, scheduler.reqs[k]
      ensures scheduler.Valid()
      ensures emitted == E.EmittedFor(scheduler.cfg, old(scheduler.reqs[k].state), choices)
      ensures State() == CommitOne(scheduler.cfg, old(State()), k, emitted)
    {
      hide CommitOne, Trimmed, Verified, States, BlockManager.State;
      var r := scheduler.reqs[k].state;
      var drafts := E.DraftTokens(r);
      emitted := VerifyGreedy(drafts, choices);
      emitted := TrimEmitted(Strip(r), scheduler.cfg.eos, emitted, false);
      scheduler.Commit(k, emitted);
    }

    method CommitBursts(specs: seq<nat>, choices: seq<seq<Token>>, ghost others: seq<nat>)
      requires scheduler.Valid() && StepInv(net, State(), specs + others)
      requires SpecsReady(net, State(), specs)
      requires choices == E.MapRefChoices(net, State(), specs)
      modifies this`lastEmitted, scheduler`waiting, scheduler`running, scheduler.manager, scheduler.manager.cache, scheduler.reqs
      ensures scheduler.Valid() && scheduler.reqs == old(scheduler.reqs)
      ensures var (s, e) := E.CommitAll(scheduler.cfg, old(State()), specs, choices);
        State() == s && lastEmitted == old(lastEmitted) + e
    {
      hide StepInv, SpecsReady, States, E.CommitAll, E.MapRefChoices, E.EmittedFor, CommitOne, E.RefChoices;
      var i := 0;
      assert specs[0..] == specs && choices[0..] == choices;
      MapRefSize(net, State(), specs);
      while i < |specs|
        invariant 0 <= i <= |specs| == |choices| && scheduler.Valid() && scheduler.reqs == old(scheduler.reqs)
        invariant StepInv(net, State(), specs[i..] + others)
        invariant SpecsReady(net, State(), specs[i..])
        invariant choices[i..] == E.MapRefChoices(net, State(), specs[i..])
        invariant var (s, e) := E.CommitAll(scheduler.cfg, old(State()), specs, choices);
          var (s', e') := E.CommitAll(scheduler.cfg, State(), specs[i..], choices[i..]);
          s == s' && old(lastEmitted) + e == lastEmitted + e'
      {
        ghost var before := State();
        BurstStep(net, scheduler.cfg, before, specs, choices, others, i);
        var k := specs[i];
        var emitted := VerifyAndCommit(k, choices[i]);
        ghost var rest := E.CommitAll(scheduler.cfg, State(), specs[i + 1..], choices[i + 1..]).1;
        assert lastEmitted + ([E.Emission(k, emitted)] + rest) == (lastEmitted + [E.Emission(k, emitted)]) + rest;
        lastEmitted := lastEmitted + [E.Emission(k, emitted)];
        i := i + 1;
      }
      CommitAllEmpty(scheduler.cfg, State(), specs[i..], choices[i..]);
    }

    // ----- the ordinary half -----

    /** A token only for a request whose history is now completely computed. */
    method SampleToken(k: nat) returns (token: Option<Token>)
      requires E.Ready(net, State(), k) && State().pool.bs >= 1 && MemoryShape(State().mem, State().pool.bs)
      ensures token == E.PagedToken(net, State(), k)
    {
      hide E.PagedPick, States, Holds;
      var r := scheduler.reqs[k].state;
      if r.computed + r.scheduled < |r.tokens| {
        return None;
      }
      var t := ReadRow(k, r.computed + r.scheduled);
      token := Some(t);
    }

    method SampleAll(normal: seq<nat>) returns (tokens: seq<Option<Token>>)
      requires StepInv(net, State(), normal) && NormalsReady(net, State(), normal)
      ensures tokens == E.MapTokens(net, State(), normal)
    {
      hide *;
      tokens := [];
      var i := 0;
      assert normal[0..] == normal;
      while i < |normal|
        invariant 0 <= i <= |normal|
        invariant tokens + E.MapTokens(net, State(), normal[i..]) == E.MapTokens(net, State(), normal)
      {
        MapTokensUnfolds(net, State(), normal, i);
        NormalRow(net, State(), normal, normal[i]);
        var t := SampleToken(normal[i]);
        tokens := tokens + [t];
        i := i + 1;
      }
      MapTokensUnfolds(net, State(), normal, i);
    }

    /** `postprocess`. */
    method PostprocessAll(normal: seq<nat>, tokens: seq<Option<Token>>)
      requires scheduler.Valid() && StepInv(net, State(), normal) && NormalsReady(net, State(), normal)
      requires tokens == E.MapRefTokens(net, State(), normal)
      modifies this`lastEmitted, scheduler`waiting, scheduler`running, scheduler.manager, scheduler.manager.cache, scheduler.reqs
      ensures scheduler.Valid() && scheduler.reqs == old(scheduler.reqs)
      ensures var (s, e) := E.PostAll(scheduler.cfg, old(State()), normal, tokens);
        State() == s && lastEmitted == old(lastEmitted) + e
    {
      hide StepInv, NormalsReady, States, E.PostAll, E.MapRefTokens, PostOne, E.RefToken;
      var i := 0;
      assert normal[0..] == normal && tokens[0..] == tokens;
      MapTokensSize(net, State(), normal);
      while i < |normal|
        invariant 0 <= i <= |normal| == |tokens| && scheduler.Valid() && scheduler.reqs == old(scheduler.reqs)
        invariant StepInv(net, State(), normal[i..]) && NormalsReady(net, State(), normal[i..])
        invariant tokens[i..] == E.MapRefTokens(net, State(), normal[i..])
        invariant var (s, e) := E.PostAll(scheduler.cfg, old(State()), normal, tokens);
          var (s', e') := E.PostAll(scheduler.cfg, State(), normal[i..], tokens[i..]);
          s == s' && old(lastEmitted) + e == lastEmitted + e'
      {
        PostStep(net, scheduler.cfg, State(), normal, tokens, i);
        var k := normal[i];
        scheduler.Postprocess(k, tokens[i]);
        var emission := E.Emission(k, if tokens[i].Some? then [tokens[i].value] else []);
        ghost var rest := E.PostAll(scheduler.cfg, State(), normal[i + 1..], tokens[i + 1..]).1;
        assert lastEmitted + ([emission] + rest) == (lastEmitted + [emission]) + rest;
        lastEmitted := lastEmitted + [emission];
        i := i + 1;
      }
      PostAllEmpty(scheduler.cfg, State(), normal[i..], tokens[i..]);
    }

    // ----- the step -----

    /** Run, verify and commit the requests that carry drafts. */
    method RunSpecStep(specs: seq<nat>, ghost normal: seq<nat>)
      requires scheduler.Valid() && StepInv(net, State(), specs + normal) && lastEmitted == []
      requires forall k :: k in specs ==> k < |State().reqs| && State().reqs[k].draft > 0
      modifies this`lastEmitted, scheduler`waiting, scheduler`running, scheduler.manager, scheduler.manager.cache, scheduler.kv, scheduler.reqs
      ensures scheduler.Valid() && scheduler.reqs == old(scheduler.reqs)
      ensures (State(), lastEmitted) == SpecResult(net, scheduler.cfg, old(State()), specs)
    {
      hide StepInv, States, State, E.RunAll, E.CommitAll, E.MapChoices, E.MapRefChoices, SpecsReady;
      RanSpecs(net, State(), specs, normal);
      RunRequests(specs, specs + normal);
      var choices := ReadAllRows(specs, normal);
      ghost var emitted := E.CommitAll(scheduler.cfg, State(), specs, choices).1;
      assert [] + emitted == emitted;
      CommitBursts(specs, choices, normal);
    }

    /** What the offload hook is given: the rows that ran, before anything is advanced. */
    method NoteRun(normal: seq<nat>)
      requires forall k :: k in normal ==> k < |scheduler.reqs|
      modifies this`lastRun
      ensures lastRun == Rows(State().reqs, normal)
    {
      hide States, Rows, BlockManager.State;
      lastRun := [];
      assert normal[..0] == [];
      RowsEmpty(State().reqs);
      var i := 0;
      while i < |normal|
        invariant 0 <= i <= |normal| && lastRun == Rows(State().reqs, normal[..i])
      {
        assert normal[i] in normal;
        RowsUnfold(State().reqs, normal, i);
        lastRun := lastRun + [Row(normal[i], scheduler.reqs[normal[i]].state)];
        i := i + 1;
      }
      assert normal[..i] == normal;
    }

    /** Run, sample and advance the rest. */
    method RunNormalStep(normal: seq<nat>)
      requires scheduler.Valid() && StepInv(net, State(), normal)
      requires forall k :: k in normal ==> k < |State().reqs| && State().reqs[k].draft == 0
      modifies this`lastEmitted, this`lastRun, scheduler`waiting, scheduler`running, scheduler.manager, scheduler.manager.cache, scheduler.kv, scheduler.reqs
      ensures scheduler.Valid() && scheduler.reqs == old(scheduler.reqs)
      ensures var (s, e) := NormalResult(net, scheduler.cfg, old(State()), normal); State() == s && lastEmitted == old(lastEmitted) + e
      ensures lastRun == Rows(old(State()).reqs, normal)
    {
      hide StepInv, States, State, E.RunAll, E.PostAll, E.MapTokens, E.MapRefTokens, NormalsReady, Rows;
      RanNormals(net, State(), normal);
      RunAllReqs(net, State(), normal);
      RunRequests(normal, normal);
      NormalSizes(normal);
      NoteRun(normal);
      var tokens := SampleAll(normal);
      PostprocessAll(normal, tokens);
    }

    lemma NormalSizes(normal: seq<nat>)
      requires forall k :: k in normal ==> k < |State().reqs|
      ensures forall k :: k in normal ==> k < |scheduler.reqs|
    {
      hide States, BlockManager.State;
    }

    method RunBatch(ids: seq<nat>)
      requires scheduler.Valid() && StepInv(net, State(), ids)
      modifies this`lastEmitted, this`lastRun, scheduler`waiting, scheduler`running, scheduler.manager, scheduler.manager.cache, scheduler.kv, scheduler.reqs
      ensures scheduler.Valid()
      ensures (State(), lastEmitted) == E.PagedBatch(net, scheduler.cfg, old(State()), ids)
      ensures lastRun == Rows(old(State()).reqs, E.NormalIds(old(State()), ids))
    {
      hide StepInv, States, State, E.PagedBatch, E.SpecIds, E.NormalIds, SpecResult, NormalResult, Rows;
      BatchHalves(net, scheduler.cfg, State(), ids);
      NormalRowsKept(net, scheduler.cfg, State(), ids);
      var specs, normal := E.SpecIds(State(), ids), E.NormalIds(State(), ids);
      lastEmitted := [];
      RunSpecStep(specs, normal);
      RunNormalStep(normal);
    }

    /** `step`: exactly one step of the reference runner, and the system is sound again.  The
        answer `false` is the refusal of a queue that can never be admitted. */
    method Step(propose: Proposer) returns (ok: bool)
      requires scheduler.Valid() && SysInv(net, State())
      modifies this`lastEmitted, this`lastRun, scheduler`waiting, scheduler`running, scheduler.manager, scheduler.manager.cache, scheduler.kv, scheduler.reqs
      ensures scheduler.Valid() && SysInv(net, State())
      ensures E.PagedStep(net, scheduler.cfg, propose, old(State())) == if ok then E.Stepped(State(), lastEmitted) else E.Refused(State())
      ensures E.RefStep(net, scheduler.cfg, propose, E.Host(old(State())))
           == if ok then E.Stepped(E.Host(State()), lastEmitted) else E.Refused(E.Host(State()))
      ensures lastRun == StepRows(scheduler.cfg, propose, old(State()))
    {
      hide StepInv, SysInv, States, ScheduleLoop, E.PagedBatch, E.RefStep, E.Host, Rows, E.NormalIds;
      R.StepRefines(net, scheduler.cfg, propose, State());
      var bound := scheduler.cfg.maxSeqs + |scheduler.running| + |scheduler.waiting| + 1;
      ScheduleInvariant(net, scheduler.cfg, propose, State(), bound);
      var batch := scheduler.ScheduleBatch(propose, net);
      lastEmitted, lastRun := [], [];
      if batch.Unadmittable? {
        return false;
      }
      if batch.Chosen? {
        RunBatch(batch.ids);
      }
      ok := true;
    }
  }

  ghost function SpecResult(net: Net, cfg: Config, s: Sys, specs: seq<nat>): (Sys, seq<E.Emission>) {
    var s1 := E.RunAll(net, s, specs);
    E.CommitAll(cfg, s1, specs, E.MapChoices(net, s1, specs))
  }

  ghost function NormalResult(net: Net, cfg: Config, s: Sys, normal: seq<nat>): (Sys, seq<E.Emission>) {
    var s1 := E.RunAll(net, s, normal);
    E.PostAll(cfg, s1, normal, E.MapTokens(net, s1, normal))
  }

  lemma RanSpecs(net: Net, s: Sys, specs: seq<nat>, normal: seq<nat>)
    requires StepInv(net, s, specs + normal) && forall k :: k in specs ==> k < |s.reqs| && s.reqs[k].draft > 0
    ensures forall k :: k in specs ==> k in specs + normal
    ensures var s1 := E.RunAll(net, s, specs);
      StepInv(net, s1, specs + normal) && SpecsReady(net, s1, specs) && E.MapChoices(net, s1, specs) == E.MapRefChoices(net, s1, specs)
  {
    hide KvInv, AllShaped, Queues, E.Ready, E.RunAll, E.MapChoices, E.MapRefChoices, Planned;
    KvShape(net, s);
    E.RunAllInv(net, s, specs + normal, specs, {});
    var s1 := E.RunAll(net, s, specs);
    E.AllPlanned(s1.pool.bs, |s1.pool.ref|, s1.reqs, specs, normal);
    E.ChoicesAgree(net, s1, specs);
  }

  lemma RanNormals(net: Net, s: Sys, normal: seq<nat>)
    requires StepInv(net, s, normal) && forall k :: k in normal ==> k < |s.reqs| && s.reqs[k].draft == 0
    ensures var s1 := E.RunAll(net, s, normal);
      StepInv(net, s1, normal) && NormalsReady(net, s1, normal) && E.MapTokens(net, s1, normal) == E.MapRefTokens(net, s1, normal)
  {
    hide KvInv, AllShaped, Queues, E.Ready, E.RunAll, E.MapTokens, E.MapRefTokens;
    E.RunAllInv(net, s, normal, normal, {});
    E.MapsAgree(net, E.RunAll(net, s, normal), normal);
  }

  lemma BatchHalves(net: Net, cfg: Config, s: Sys, ids: seq<nat>)
    requires StepInv(net, s, ids)
    ensures var specs, normal := E.SpecIds(s, ids), E.NormalIds(s, ids); var (s2, e1) := SpecResult(net, cfg, s, specs);
      && StepInv(net, s, specs + normal) && (forall k :: k in specs ==> k < |s.reqs| && s.reqs[k].draft > 0)
      && StepInv(net, s2, normal) && (forall k :: k in normal ==> k < |s2.reqs| && s2.reqs[k].draft == 0)
      && E.PagedBatch(net, cfg, s, ids) == (NormalResult(net, cfg, s2, normal).0, e1 + NormalResult(net, cfg, s2, normal).1)
  {
    hide KvInv, AllShaped, Queues, E.RunAll, E.CommitAll, E.PostAll, E.MapTokens, E.MapChoices, E.MapRefChoices, E.SpecIds, E.NormalIds;
    KvShape(net, s);
    var specs, normal := E.SpecIds(s, ids), E.NormalIds(s, ids);
    E.Partition(s.pool.bs, |s.pool.ref|, s, ids);
    E.PartitionMembers(s, ids);
    E.PartitionDistinct(s, ids);
    E.AllPlanned(s.pool.bs, |s.pool.ref|, s.reqs, specs, normal);
    E.SpecHalf(net, cfg, s, specs, normal);
    E.NormalsUntouched(E.RunAll(net, s, specs), SpecResult(net, cfg, s, specs).0, specs, normal);
  }

  lemma RowsEmpty(reqs: seq<Req>)
    ensures Rows(reqs, []) == []
  {
  }

  lemma {:induction false} RunAllReqs(net: Net, s: Sys, ids: seq<nat>)
    ensures E.RunAll(net, s, ids).reqs == s.reqs
    decreases |ids|
  {
    hide Forward;
    if ids != [] {
      RunAllReqs(net, E.RunOne(net, s, ids[0]), ids[1..]);
    }
  }

  /** Committing the bursts leaves the ordinary requests alone. */
  lemma NormalRowsKept(net: Net, cfg: Config, s: Sys, ids: seq<nat>)
    requires StepInv(net, s, ids)
    ensures var s2 := SpecResult(net, cfg, s, E.SpecIds(s, ids)).0; Rows(s2.reqs, E.NormalIds(s, ids)) == Rows(s.reqs, E.NormalIds(s, ids))
  {
    hide KvInv, AllShaped, Queues, E.RunAll, E.CommitAll, E.MapChoices, E.MapRefChoices, E.SpecIds, E.NormalIds, Rows;
    KvShape(net, s);
    var specs, normal := E.SpecIds(s, ids), E.NormalIds(s, ids);
    E.Partition(s.pool.bs, |s.pool.ref|, s, ids);
    E.PartitionMembers(s, ids);
    E.PartitionDistinct(s, ids);
    E.AllPlanned(s.pool.bs, |s.pool.ref|, s.reqs, specs, normal);
    E.SpecHalf(net, cfg, s, specs, normal);
    RunAllReqs(net, s, specs);
    E.NormalsUntouched(E.RunAll(net, s, specs), SpecResult(net, cfg, s, specs).0, specs, normal);
    RowsSame(s.reqs, SpecResult(net, cfg, s, specs).0.reqs, normal);
  }

  ghost predicate NormalsReady(net: Net, s: Sys, normal: seq<nat>) {
    forall k :: k in normal ==> k < |s.reqs| && E.Ready(net, s, k) && s.reqs[k].draft == 0
  }

  lemma MapTokensUnfolds(net: Net, s: Sys, ids: seq<nat>, i: nat)
    requires i <= |ids|
    ensures i == |ids| ==> E.MapTokens(net, s, ids[i..]) == []
    ensures i < |ids| ==> E.MapTokens(net, s, ids[i..]) == [E.PagedToken(net, s, ids[i])] + E.MapTokens(net, s, ids[i + 1..])
  {
    hide E.PagedToken;
    if i < |ids| {
      assert ids[i..][1..] == ids[i + 1..];
    }
  }

  lemma NormalRow(net: Net, s: Sys, normal: seq<nat>, k: nat)
    requires StepInv(net, s, normal) && NormalsReady(net, s, normal) && k in normal
    ensures k < |s.reqs| && E.Ready(net, s, k) && s.pool.bs >= 1 && MemoryShape(s.mem, s.pool.bs)
  {
    hide Queues, Shaped, PoolInv, CacheHolds, E.Ready;
  }

  lemma {:induction false} MapTokensSize(net: Net, s: Sys, ids: seq<nat>)
    ensures |E.MapRefTokens(net, s, ids)| == |ids|
  {
    if ids != [] {
      MapTokensSize(net, s, ids[1..]);
    }
  }

  lemma PostAllEmpty(cfg: Config, s: Sys, ids: seq<nat>, tokens: seq<Option<Token>>)
    requires ids == []
    ensures E.PostAll(cfg, s, ids, tokens) == (s, [])
  {
  }

  /** One round of the postprocess loop. */
  lemma PostStep(net: Net, cfg: Config, s: Sys, normal: seq<nat>, tokens: seq<Option<Token>>, i: nat)
    requires i < |normal| == |tokens| && StepInv(net, s, normal[i..]) && NormalsReady(net, s, normal[i..])
    requires tokens[i..] == E.MapRefTokens(net, s, normal[i..])
    ensures normal[i] < |s.reqs| && s.pool.bs >= 1
    ensures var s1 := PostOne(cfg, s, normal[i], tokens[i]);
      && StepInv(net, s1, normal[i + 1..]) && NormalsReady(net, s1, normal[i + 1..])
      && tokens[i + 1..] == E.MapRefTokens(net, s1, normal[i + 1..])
      && E.PostAll(cfg, s, normal[i..], tokens[i..])
           == (E.PostAll(cfg, s1, normal[i + 1..], tokens[i + 1..]).0,
               [E.Emission(normal[i], if tokens[i].Some? then [tokens[i].value] else [])] + E.PostAll(cfg, s1, normal[i + 1..], tokens[i + 1..]).1)
  {
    hide KvInv, AllShaped, Queues, E.Ready, PostOne;
    KvShape(net, s);
    var ids, k := normal[i..], normal[i];
    assert ids[0] == k && ids[1..] == normal[i + 1..] && tokens[i..][0] == tokens[i] && tokens[i..][1..] == tokens[i + 1..];
    assert ids + [] == ids && ids[1..] + [] == ids[1..];
    assert k in ids && forall j :: j in ids[1..] ==> j in ids;
    E.HeadApart(s.pool.bs, |s.pool.ref|, s.reqs, ids, []);
    E.PostOneInv(net, cfg, s, ids[1..], k, tokens[i]);
    var s1 := PostOne(cfg, s, k, tokens[i]);
    E.MapRefSame(net, s, s1, ids[1..]);
    E.ReadyOthers(net, s, s1, k);
  }

  ghost predicate SpecsReady(net: Net, s: Sys, specs: seq<nat>) {
    forall k :: k in specs ==> k < |s.reqs| && E.Ready(net, s, k) && s.reqs[k].draft > 0
  }

  lemma MapChoicesUnfolds(net: Net, s: Sys, ids: seq<nat>, i: nat)
    requires i <= |ids|
    ensures i == |ids| ==> E.MapChoices(net, s, ids[i..]) == []
    ensures i < |ids| ==> E.MapChoices(net, s, ids[i..]) == [E.PagedChoices(net, s, ids[i])] + E.MapChoices(net, s, ids[i + 1..])
  {
    hide E.PagedChoices;
    if i < |ids| {
      assert ids[i..][1..] == ids[i + 1..];
    }
  }

  /** A speculative request's rows are all there to be read. */
  lemma SpecRow(net: Net, s: Sys, specs: seq<nat>, others: seq<nat>, k: nat)
    requires StepInv(net, s, specs + others) && SpecsReady(net, s, specs) && k in specs
    ensures k < |s.reqs| && E.Ready(net, s, k)
    ensures s.pool.bs >= 1 && MemoryShape(s.mem, s.pool.bs) && s.reqs[k].scheduled == s.reqs[k].draft + 1
    ensures Planned(s.pool.bs, |s.pool.ref|, s.reqs[k])
  {
    hide Queues, Shaped, PoolInv, CacheHolds, E.Ready;
    assert k in specs + others;
  }

  lemma {:induction false} MapRefSize(net: Net, s: Sys, ids: seq<nat>)
    ensures |E.MapRefChoices(net, s, ids)| == |ids|
  {
    if ids != [] {
      MapRefSize(net, s, ids[1..]);
    }
  }

  lemma CommitAllEmpty(cfg: Config, s: Sys, ids: seq<nat>, choices: seq<seq<Token>>)
    requires ids == []
    ensures E.CommitAll(cfg, s, ids, choices) == (s, [])
  {
  }

  /** One round of the commit loop. */
  lemma BurstStep(net: Net, cfg: Config, s: Sys, specs: seq<nat>, choices: seq<seq<Token>>, others: seq<nat>, i: nat)
    requires i < |specs| == |choices| && StepInv(net, s, specs[i..] + others)
    requires SpecsReady(net, s, specs[i..])
    requires choices[i..] == E.MapRefChoices(net, s, specs[i..])
    ensures specs[i] < |s.reqs| && s.pool.bs >= 1 && |choices[i]| == |E.DraftTokens(s.reqs[specs[i]])| + 1
    ensures var emitted := E.EmittedFor(cfg, s.reqs[specs[i]], choices[i]); var s1 := CommitOne(cfg, s, specs[i], emitted);
      && StepInv(net, s1, specs[i + 1..] + others)
      && SpecsReady(net, s1, specs[i + 1..])
      && choices[i + 1..] == E.MapRefChoices(net, s1, specs[i + 1..])
      && E.CommitAll(cfg, s, specs[i..], choices[i..])
           == (E.CommitAll(cfg, s1, specs[i + 1..], choices[i + 1..]).0,
               [E.Emission(specs[i], emitted)] + E.CommitAll(cfg, s1, specs[i + 1..], choices[i + 1..]).1)
  {
    hide KvInv, AllShaped, Queues, E.Ready, CommitOne, E.EmittedFor, E.RefChoices, E.GoodBurst;
    KvShape(net, s);
    var ids, k := specs[i..], specs[i];
    assert ids[0] == k && ids[1..] == specs[i + 1..] && choices[i..][0] == choices[i] && choices[i..][1..] == choices[i + 1..];
    assert k in ids && forall j :: j in ids[1..] ==> j in ids;
    E.HeadApart(s.pool.bs, |s.pool.ref|, s.reqs, ids, others);
    E.RefBurst(net, cfg, s, k);
    DraftChoices(net, s, k);
    var emitted := E.EmittedFor(cfg, s.reqs[k], E.RefChoices(net, s, k));
    E.CommitOneInv(net, cfg, s, ids[1..] + others, k, emitted);
    var s1 := CommitOne(cfg, s, k, emitted);
    E.MapRefSame(net, s, s1, ids[1..]);
    E.ReadyOthers(net, s, s1, k);
  }

  lemma DraftChoices(net: Net, s: Sys, k: nat)
    requires k < |s.reqs| && s.reqs[k].draft <= |s.reqs[k].tokens|
    ensures |E.RefChoices(net, s, k)| == |E.DraftTokens(s.reqs[k])| + 1
  {
    hide Choices;
  }

  lemma RunnableRow(net: Net, s: Sys, ids: seq<nat>, k: nat)
    requires StepInv(net, s, ids) && k in ids
    ensures k < |s.reqs| && s.pool.bs >= 1 && MemoryShape(s.mem, s.pool.bs) && InPool(s.reqs[k].table, |s.mem|)
    ensures var r := s.reqs[k]; r.computed + r.scheduled <= |r.tokens| && r.computed + r.scheduled <= |r.table| * s.pool.bs
  {
    hide KvInv, Local, Rest, Queues, Shaped;
    KvShape(net, s);
    At(net, s, k);
    LocalShape(net, s.pool, s.mem, Rest(s.reqs, k), s.reqs[k]);
  }

  lemma RunAllUnfolds(net: Net, s: Sys, run: seq<nat>, i: nat)
    requires i <= |run|
    ensures i == |run| ==> E.RunAll(net, s, run[i..]) == s
    ensures i < |run| ==> E.RunAll(net, s, run[i..]) == E.RunAll(net, E.RunOne(net, s, run[i]), run[i + 1..])
  {
    hide E.RunOne;
    if i < |run| {
      assert run[i..][1..] == run[i + 1..];
    }
  }

  lemma ReadableRow(net: Net, s: Sys, k: nat, end: nat)
    requires E.Ready(net, s, k) && end <= s.reqs[k].computed + s.reqs[k].scheduled
    requires s.pool.bs >= 1 && MemoryShape(s.mem, s.pool.bs)
    ensures InPool(s.reqs[k].table, |s.mem|) && end <= |s.reqs[k].tokens| && end <= |s.reqs[k].table| * s.pool.bs
    ensures end <= |Flat(s.mem, s.reqs[k].table)|
  {
    hide Flat, RefCells;
    FlatLength(s.mem, s.pool.bs, s.reqs[k].table);
  }
}

/** One engine step on the paged pool, and the same step on the reference runner that
    recomputes every prefix from token 0. */
module Engine {
  import opened Kv
  import opened BlockPool
  import opened Requests
  import opened Ownership
  import opened OwnershipSteps
  import opened SpecDecode
  import opened System
  import opened SystemInv
  import opened ScheduleInv

  /** What one step emitted for one request. */
  datatype Emission = Emission(id: nat, tokens: seq<Token>)

  function SpecIds(s: Sys, ids: seq<nat>): seq<nat> {
    if ids == [] then []
    else (if ids[0] < |s.reqs| && s.reqs[ids[0]].draft > 0 then [ids[0]] else []) + SpecIds(s, ids[1..])
  }

  function NormalIds(s: Sys, ids: seq<nat>): seq<nat> {
    if ids == [] then []
    else (if ids[0] < |s.reqs| && s.reqs[ids[0]].draft > 0 then [] else [ids[0]]) + NormalIds(s, ids[1..])
  }

  function DraftTokens(r: Req): seq<Token> {
    if r.draft <= |r.tokens| then r.tokens[|r.tokens| - r.draft..] else []
  }

  // ----- the paged runner -----

  ghost function RunOne(net: Net, s: Sys, k: nat): Sys {
    if k >= |s.reqs| then s
    else
      var r := s.reqs[k];
      s.(mem := Forward(net, s.mem, s.pool.bs, r.table, r.tokens, r.computed, r.computed + r.scheduled))
  }

  ghost function RunAll(net: Net, s: Sys, ids: seq<nat>): Sys
    decreases |ids|
  {
    if ids == [] then s else RunAll(net, RunOne(net, s, ids[0]), ids[1..])
  }

  /** The target's choice at the row of position `end - 1`, read through the block table. */
  ghost function PagedPick(net: Net, s: Sys, k: nat, end: nat): Token {
    if k < |s.reqs| && InPool(s.reqs[k].table, |s.mem|) && end <= |Flat(s.mem, s.reqs[k].table)| && end <= |s.reqs[k].tokens| then
      net.pick(Flat(s.mem, s.reqs[k].table)[..end], s.reqs[k].tokens[..end], s.reqs[k].policy)
    else 0
  }

  /** A token only for a request whose history is now completely computed. */
  ghost function PagedToken(net: Net, s: Sys, k: nat): Option<Token> {
    if k < |s.reqs| && s.reqs[k].computed + s.reqs[k].scheduled >= |s.reqs[k].tokens|
    then Some(PagedPick(net, s, k, s.reqs[k].computed + s.reqs[k].scheduled))
    else None
  }

  ghost function PagedChoices(net: Net, s: Sys, k: nat): (choices: seq<Token>)
    ensures k < |s.reqs| ==> |choices| == s.reqs[k].draft + 1
  {
    if k >= |s.reqs| then []
    else seq(s.reqs[k].draft + 1, j requires 0 <= j => PagedPick(net, s, k, s.reqs[k].computed + 1 + j))
  }

  // ----- the reference runner -----

  function Target(net: Net, policy: int): seq<Token> -> Token {
    tokens => RefNext(net, tokens, policy)
  }

  function RefToken(net: Net, s: Sys, k: nat): Option<Token> {
    if k < |s.reqs| && s.reqs[k].computed + s.reqs[k].scheduled >= |s.reqs[k].tokens|
    then Some(RefNext(net, s.reqs[k].tokens, s.reqs[k].policy))
    else None
  }

  function RefChoices(net: Net, s: Sys, k: nat): (choices: seq<Token>)
    ensures k < |s.reqs| && s.reqs[k].draft <= |s.reqs[k].tokens| ==> |choices| == s.reqs[k].draft + 1
  {
    if k >= |s.reqs| then []
    else Choices(Target(net, s.reqs[k].policy), Strip(s.reqs[k]).tokens, DraftTokens(s.reqs[k]))
  }

  // ----- committing what was decided -----

  function EmittedFor(cfg: Config, r: Req, choices: seq<Token>): seq<Token> {
    var drafts := DraftTokens(r);
    if |choices| != |drafts| + 1 then []
    else Trimmed(Strip(r), cfg.eos, Verified(drafts, choices))
  }

  function CommitAll(cfg: Config, s: Sys, ids: seq<nat>, choices: seq<seq<Token>>): (Sys, seq<Emission>)
    decreases |ids|
  {
    if ids == [] || choices == [] || ids[0] >= |s.reqs| || s.pool.bs == 0 then (s, [])
    else
      var k := ids[0];
      var emitted := EmittedFor(cfg, s.reqs[k], choices[0]);
      var (s', more) := CommitAll(cfg, CommitOne(cfg, s, k, emitted), ids[1..], choices[1..]);
      (s', [Emission(k, emitted)] + more)
  }

  function PostAll(cfg: Config, s: Sys, ids: seq<nat>, tokens: seq<Option<Token>>): (Sys, seq<Emission>)
    decreases |ids|
  {
    if ids == [] || tokens == [] || ids[0] >= |s.reqs| || s.pool.bs == 0 then (s, [])
    else
      var k := ids[0];
      var (s', more) := PostAll(cfg, PostOne(cfg, s, k, tokens[0]), ids[1..], tokens[1..]);
      (s', [Emission(k, if tokens[0].Some? then [tokens[0].value] else [])] + more)
  }

  ghost function MapChoices(net: Net, s: Sys, ids: seq<nat>): seq<seq<Token>> {
    if ids == [] then [] else [PagedChoices(net, s, ids[0])] + MapChoices(net, s, ids[1..])
  }

  ghost function MapTokens(net: Net, s: Sys, ids: seq<nat>): seq<Option<Token>> {
    if ids == [] then [] else [PagedToken(net, s, ids[0])] + MapTokens(net, s, ids[1..])
  }

  function MapRefChoices(net: Net, s: Sys, ids: seq<nat>): seq<seq<Token>> {
    if ids == [] then [] else [RefChoices(net, s, ids[0])] + MapRefChoices(net, s, ids[1..])
  }

  function MapRefTokens(net: Net, s: Sys, ids: seq<nat>): seq<Option<Token>> {
    if ids == [] then [] else [RefToken(net, s, ids[0])] + MapRefTokens(net, s, ids[1..])
  }

  /** The scheduled batch on the paged pool: speculative requests first, then the rest. */
  ghost function PagedBatch(net: Net, cfg: Config, s: Sys, ids: seq<nat>): (Sys, seq<Emission>) {
    var specs, normal := SpecIds(s, ids), NormalIds(s, ids);
    var s1 := RunAll(net, s, specs);
    var (s2, e1) := CommitAll(cfg, s1, specs, MapChoices(net, s1, specs));
    var s3 := RunAll(net, s2, normal);
    var (s4, e2) := PostAll(cfg, s3, normal, MapTokens(net, s3, normal));
    (s4, e1 + e2)
  }

  /** The same batch on the reference runner, which keeps no KV at all. */
  function RefBatch(net: Net, cfg: Config, s: Sys, ids: seq<nat>): (Sys, seq<Emission>) {
    var specs, normal := SpecIds(s, ids), NormalIds(s, ids);
    var (s2, e1) := CommitAll(cfg, s, specs, MapRefChoices(net, s, specs));
    var (s4, e2) := PostAll(cfg, s2, normal, MapRefTokens(net, s2, normal));
    (s4, e1 + e2)
  }

  /** `Refused` is the error for a queue whose blocks are all pinned by others; the engine
      stays usable.  `Broken` stands for the two errors that must never be raised. */
  datatype StepResult = Stepped(s: Sys, emitted: seq<Emission>) | Refused(s: Sys) | Broken

  ghost function PagedStep(net: Net, cfg: Config, propose: Proposer, s: Sys): StepResult {
    match Schedule(cfg, propose, s)
    case Scheduled(s', ids) => var (s'', emitted) := PagedBatch(net, cfg, s', ids); Stepped(s'', emitted)
    case Idle(s') => Stepped(s', [])
    case TooLarge(s') => Refused(s')
    case _ => Broken
  }

  function RefStep(net: Net, cfg: Config, propose: Proposer, s: Sys): StepResult {
    match Schedule(cfg, propose, s)
    case Scheduled(s', ids) => var (s'', emitted) := RefBatch(net, cfg, s', ids); Stepped(s'', emitted)
    case Idle(s') => Stepped(s', [])
    case TooLarge(s') => Refused(s')
    case _ => Broken
  }

  // ----- running a batch -----

  /** Everything a scheduled request will have computed is already right in the pool. */
  ghost predicate Ready(net: Net, s: Sys, k: nat) {
    k < |s.reqs| && Holds(net, s.mem, s.reqs[k].table, s.reqs[k].tokens, s.reqs[k].computed + s.reqs[k].scheduled)
  }

  lemma RunOneInv(net: Net, s: Sys, ids: seq<nat>, k: nat)
    requires StepInv(net, s, ids) && k in ids
    ensures var s' := RunOne(net, s, k);
      && StepInv(net, s', ids) && s' == s.(mem := s'.mem) && Ready(net, s', k)
      && forall j :: j in ids && Ready(net, s, j) ==> Ready(net, s', j)
  {
    hide KvInv, Local, Frame, Forward, Holds, Rest, Flat, RefCells, Queues, Shaped;
    KvShape(net, s);
    var r, rest := s.reqs[k], Rest(s.reqs, k);
    var end := r.computed + r.scheduled;
    At(net, s, k);
    ForwardLocal(net, s.pool, s.mem, rest, r, end);
    var mem' := Forward(net, s.mem, s.pool.bs, r.table, r.tokens, r.computed, end);
    Lift(net, s, k, s.pool, mem', r);
    assert s.reqs[k := r] == s.reqs;
    var s' := s.(mem := mem');
    forall j | j in ids && Ready(net, s, j)
      ensures Ready(net, s', j)
    {
      if j != k {
        SameReads(net, s, s', j);
      }
    }
  }

  lemma SameReads(net: Net, s: Sys, s': Sys, j: nat)
    requires Ready(net, s, j) && s'.reqs == s.reqs
    requires InPool(s.reqs[j].table, |s.mem|) ==>
      InPool(s.reqs[j].table, |s'.mem|) && Flat(s'.mem, s.reqs[j].table) == Flat(s.mem, s.reqs[j].table)
    ensures Ready(net, s', j)
  {
    hide Flat, RefCells;
  }

  lemma {:induction false} RunAllInv(net: Net, s: Sys, ids: seq<nat>, run: seq<nat>, done: set<nat>)
    requires StepInv(net, s, ids) && (forall k :: k in run ==> k in ids)
    requires forall k :: k in done ==> k in ids && Ready(net, s, k)
    ensures var s' := RunAll(net, s, run);
      && StepInv(net, s', ids) && s' == s.(mem := s'.mem)
      && forall k :: k in done || k in run ==> Ready(net, s', k)
    decreases |run|
  {
    hide StepInv, RunOne, Ready;
    if run != [] {
      RunOneInv(net, s, ids, run[0]);
      RunAllInv(net, RunOne(net, s, run[0]), ids, run[1..], done + {run[0]});
      assert forall k :: k in run ==> k == run[0] || k in run[1..];
    }
  }

  // ----- the paged runner samples what the reference samples -----

  lemma PagedPickIsReference(net: Net, s: Sys, k: nat, end: nat)
    requires Ready(net, s, k) && end <= s.reqs[k].computed + s.reqs[k].scheduled
    ensures end <= |s.reqs[k].tokens|
    ensures PagedPick(net, s, k, end) == RefNext(net, s.reqs[k].tokens[..end], s.reqs[k].policy)
  {
    hide Flat, RefCells;
    var r := s.reqs[k];
    HoldsLess(net, s.mem, r.table, r.tokens, r.computed + r.scheduled, end);
  }

  lemma PagedTokenIsReference(net: Net, s: Sys, k: nat)
    requires Ready(net, s, k)
    ensures PagedToken(net, s, k) == RefToken(net, s, k)
  {
    hide Flat, RefCells;
    var r := s.reqs[k];
    var end := r.computed + r.scheduled;
    if end >= |r.tokens| {
      PagedPickIsReference(net, s, k, end);
      assert r.tokens[..end] == r.tokens;
    }
  }

  lemma PagedChoicesAreReference(net: Net, s: Sys, k: nat)
    requires Ready(net, s, k) && s.pool.bs >= 1 && Planned(s.pool.bs, |s.pool.ref|, s.reqs[k]) && s.reqs[k].draft > 0
    ensures PagedChoices(net, s, k) == RefChoices(net, s, k)
  {
    hide Flat, RefCells, Holds, BlocksNeededFor, PagedPick;
    var r := s.reqs[k];
    var drafts := DraftTokens(r);
    forall j | 0 <= j <= r.draft
      ensures PagedChoices(net, s, k)[j] == RefChoices(net, s, k)[j]
    {
      PagedPickIsReference(net, s, k, r.computed + 1 + j);
      assert r.tokens[..r.computed + 1 + j] == Strip(r).tokens + drafts[..j];
    }
  }

  // ----- completing a request -----

  /** A request that has just emitted, before it is known whether it is done. */
  ghost predicate Emitted(bs: nat, blocks: nat, r: Req)
    requires bs >= 1
  {
    && r.status == Running && r.draft == 0 && r.scheduled == 0 && 1 <= r.prompt <= |r.tokens|
    && r.computed < |r.tokens| && BlocksNeededFor(r.prompt + r.maxTokens, bs) <= blocks
  }

  /** The step invariant with request `k` still to be classified. */
  ghost predicate Pending(net: Net, s: Sys, ids: seq<nat>, k: nat) {
    && KvInv(net, s) && Queues(s.reqs, s.waiting, s.running)
    && k < |s.reqs| && k !in ids
    && AllShapedBut(s.pool.bs, |s.pool.ref|, s.reqs, ids, k)
  }

  ghost predicate AllShapedBut(bs: nat, blocks: nat, reqs: seq<Req>, ids: seq<nat>, k: nat) {
    && bs >= 1 && Distinct(ids)
    && (forall j :: j in ids ==> j < |reqs| && Planned(bs, blocks, reqs[j]))
    && (forall j: nat :: j < |reqs| && j !in ids && j != k ==> Shaped(bs, blocks, reqs[j]))
  }

  lemma ShapedButUpdate(bs: nat, blocks: nat, reqs: seq<Req>, ids: seq<nat>, k: nat, r: Req)
    requires AllShapedBut(bs, blocks, reqs, ids, k) && k < |reqs| && k !in ids
    ensures AllShapedBut(bs, blocks, reqs[k := r], ids, k)
    ensures Shaped(bs, blocks, r) ==> AllShaped(bs, blocks, reqs[k := r], ids)
  {
    hide Shaped, Planned;
  }

  lemma ShapedButOpen(bs: nat, blocks: nat, reqs: seq<Req>, k: nat, ids: seq<nat>)
    requires bs >= 1 && AllShaped(bs, blocks, reqs, [k] + ids)
    ensures k < |reqs| && k !in ids && Planned(bs, blocks, reqs[k]) && AllShapedBut(bs, blocks, reqs, ids, k)
  {
    hide Shaped, Planned;
    var all := [k] + ids;
    assert all[0] == k && forall i :: 0 <= i < |ids| ==> all[i + 1] == ids[i];
    assert k in all && forall j :: j in all <==> j == k || j in ids;
    forall i | 0 <= i < |ids|
      ensures ids[i] != k
    {
      assert all[0] != all[i + 1];
    }
    forall i, j | 0 <= i < j < |ids|
      ensures ids[i] != ids[j]
    {
      assert all[i + 1] != all[j + 1];
    }
  }

  lemma QueuesLeave(reqs: seq<Req>, waiting: seq<nat>, running: seq<nat>, k: nat, r: Req)
    requires Queues(reqs, waiting, running) && k < |reqs| && r.status != Waiting && r.status != Running
    ensures Queues(reqs[k := r], Without(waiting, k), Without(running, k))
  {
    WithoutElements(waiting, k);
    WithoutElements(running, k);
  }

  lemma NotWaiting(reqs: seq<Req>, waiting: seq<nat>, running: seq<nat>, k: nat)
    requires Queues(reqs, waiting, running) && k < |reqs| && reqs[k].status != Waiting
    ensures Without(waiting, k) == waiting
  {
    assert k !in waiting;
    WithoutAbsent(waiting, k);
  }

  lemma {:induction false} WithoutAbsent(s: seq<nat>, x: nat)
    requires x !in s
    ensures Without(s, x) == s
  {
    if s != [] {
      WithoutAbsent(s[1..], x);
    }
  }

  /** Retiring returns every block and leaves both queues. */
  lemma RetireInv(net: Net, s: Sys, ids: seq<nat>, k: nat)
    requires Pending(net, s, ids, k) && 1 <= s.reqs[k].prompt <= |s.reqs[k].tokens| && s.reqs[k].draft == 0
    ensures StepInv(net, Retire(s, k, Finished), ids)
    ensures Retire(s, k, Finished) == Retire(s, k, Finished).(mem := s.mem)
  {
    hide KvInv, Local, Frame, Rest, DecrefAll, AllShapedBut, Queues, BlocksNeededFor;
    KvShape(net, s);
    var r := s.reqs[k];
    var r' := r.(table := [], status := Finished).ResetKv();
    At(net, s, k);
    DeallocateStep(net, s.pool, s.mem, Rest(s.reqs, k), r, r');
    var q := DecrefAll(s.pool, r.table);
    FrameShape(s.pool, s.mem, q, s.mem, Rest(s.reqs, k));
    Lift(net, s, k, q, s.mem, r');
    ShapedButUpdate(s.pool.bs, |s.pool.ref|, s.reqs, ids, k, r');
    QueuesLeave(s.reqs, s.waiting, s.running, k, r');
    KvQueues(net, s.(pool := q, mem := s.mem, reqs := s.reqs[k := r']), Without(s.waiting, k), Without(s.running, k));
  }

  lemma PauseInv(net: Net, s: Sys, ids: seq<nat>, k: nat)
    requires Pending(net, s, ids, k) && s.pool.bs >= 1 && Emitted(s.pool.bs, |s.pool.ref|, s.reqs[k])
    ensures StepInv(net, PauseReq(s, k), ids)
  {
    hide KvInv, Local, Rest, AllShapedBut, Queues, BlocksNeededFor;
    var r := s.reqs[k];
    var r' := r.(scheduled := 0, status := Paused);
    At(net, s, k);
    SameKvKeeps(net, s.pool, s.mem, Rest(s.reqs, k), r, r');
    FrameRefl(s.pool, s.mem, Rest(s.reqs, k));
    Lift(net, s, k, s.pool, s.mem, r');
    ShapedButUpdate(s.pool.bs, |s.pool.ref|, s.reqs, ids, k, r');
    QueuesLeave(s.reqs, s.waiting, s.running, k, r');
    NotWaiting(s.reqs, s.waiting, s.running, k);
    KvQueues(net, s.(pool := s.pool, mem := s.mem, reqs := s.reqs[k := r']), s.waiting, Without(s.running, k));
  }

  lemma CompleteInv(net: Net, cfg: Config, s: Sys, ids: seq<nat>, k: nat)
    requires Pending(net, s, ids, k) && s.pool.bs >= 1 && Emitted(s.pool.bs, |s.pool.ref|, s.reqs[k])
    ensures StepInv(net, CompleteIfDone(cfg, s, k), ids)
    ensures SameOthers(s, CompleteIfDone(cfg, s, k), k)
  {
    hide KvInv, AllShapedBut, Queues, BlocksNeededFor, DecrefAll;
    if FinishReason(s.reqs[k], cfg.eos) == Unfinished {
      ShapedButUpdate(s.pool.bs, |s.pool.ref|, s.reqs, ids, k, s.reqs[k]);
      assert s.reqs[k := s.reqs[k]] == s.reqs;
    } else if s.reqs[k].hold {
      PauseInv(net, s, ids, k);
    } else {
      RetireInv(net, s, ids, k);
    }
  }

  /** Only request `k`, the pool's bookkeeping and the queues differ; no block is written. */
  ghost predicate SameOthers(s: Sys, s': Sys, k: nat) {
    && s'.mem == s.mem && |s'.reqs| == |s.reqs|
    && forall j :: 0 <= j < |s.reqs| && j != k ==> s'.reqs[j] == s.reqs[j]
  }

  // ----- advancing, publishing and appending -----

  /** Moves request `k` forward and publishes: the state before completion is decided. */
  lemma PublishPending(net: Net, s: Sys, ids: seq<nat>, k: nat, p: Pool, r: Req)
    requires Pending(net, s, ids, k) && s.reqs[k].status == Running
    requires p.bs == s.pool.bs >= 1
    requires Local(net, p, s.mem, Rest(s.reqs, k), r) && PublishReady(p, r)
    requires Frame(s.pool, s.mem, p, s.mem, Rest(s.reqs, k)) && r.status == Running
    ensures var s' := Publish(SetReq(s, k, p, r), k);
      && s'.pool.bs == s.pool.bs && |s'.pool.ref| == |s.pool.ref|
      && Pending(net, s', ids, k) && SameOthers(s, s', k)
      && s'.reqs[k] == r.(published := s'.reqs[k].published, parent := s'.reqs[k].parent)
      && s'.waiting == s.waiting && s'.running == s.running
  {
    hide KvInv, Local, Frame, Rest, AllShapedBut, Queues, PublishFullBlocks, PublishReady;
    var rest := Rest(s.reqs, k);
    PublishStep(net, p, s.mem, rest, r);
    var (q, r') := PublishFullBlocks(p, r);
    FrameTransitive(s.pool, s.mem, p, s.mem, q, s.mem, rest);
    FrameShape(s.pool, s.mem, q, s.mem, rest);
    Lift(net, s, k, q, s.mem, r');
    assert s.reqs[k := r][k := r'] == s.reqs[k := r'];
    ShapedButUpdate(s.pool.bs, |s.pool.ref|, s.reqs, ids, k, r');
    QueuesKeep(s.reqs, k, r', s.waiting, s.running);
  }

  /** Changing the history past the computed mark of a pending request. */
  lemma AppendPending(net: Net, s: Sys, ids: seq<nat>, k: nat, r: Req)
    requires Pending(net, s, ids, k) && s.reqs[k].status == Running
    requires s.reqs[k].computed <= |s.reqs[k].tokens| <= |r.tokens|
    requires r == s.reqs[k].(tokens := r.tokens) && r.tokens[..s.reqs[k].computed] == s.reqs[k].tokens[..s.reqs[k].computed]
    ensures Pending(net, SetReq(s, k, s.pool, r), ids, k)
  {
    hide KvInv, Local, Frame, Rest, AllShapedBut, Queues;
    At(net, s, k);
    HistoryStep(net, s.pool, s.mem, Rest(s.reqs, k), s.reqs[k], r);
    FrameRefl(s.pool, s.mem, Rest(s.reqs, k));
    Lift(net, s, k, s.pool, s.mem, r);
    ShapedButUpdate(s.pool.bs, |s.pool.ref|, s.reqs, ids, k, r);
    QueuesKeep(s.reqs, k, r, s.waiting, s.running);
  }

  /** `postprocess` for a request whose span has been computed. */
  lemma PostOneInv(net: Net, cfg: Config, s: Sys, ids: seq<nat>, k: nat, token: Option<Token>)
    requires StepInv(net, s, [k] + ids) && Ready(net, s, k) && s.reqs[k].draft == 0
    requires token.None? <==> s.reqs[k].computed + s.reqs[k].scheduled < |s.reqs[k].tokens|
    ensures s.pool.bs >= 1
    ensures StepInv(net, PostOne(cfg, s, k, token), ids) && SameOthers(s, PostOne(cfg, s, k, token), k)
  {
    hide KvInv, Local, Rest, AllShaped, AllShapedBut, Queues, Holds, PublishReady, BlocksNeededFor, Publish, CompleteIfDone;
    KvShape(net, s);
    ShapedButOpen(s.pool.bs, |s.pool.ref|, s.reqs, k, ids);
    var r, rest := s.reqs[k], Rest(s.reqs, k);
    var end := r.computed + r.scheduled;
    At(net, s, k);
    RunningReady(net, s.pool, s.mem, rest, r);
    AdvanceStep(net, s.pool, s.mem, rest, r, end);
    var r1 := r.(computed := end, scheduled := 0);
    SameKvKeeps(net, s.pool, s.mem, rest, r.(computed := end), r1);
    FrameRefl(s.pool, s.mem, rest);
    PublishPending(net, s, ids, k, s.pool, r1);
    var s1 := Publish(SetReq(s, k, s.pool, r1), k);
    if token.None? {
      ShapedButUpdate(s.pool.bs, |s.pool.ref|, s1.reqs, ids, k, s1.reqs[k]);
      assert s1.reqs[k := s1.reqs[k]] == s1.reqs;
    } else {
      var r2 := Append(s1.reqs[k], [token.value]);
      AppendPending(net, s1, ids, k, r2);
      CompleteInv(net, cfg, SetReq(s1, k, s1.pool, r2), ids, k);
    }
  }

  // ----- committing a burst -----

  /** What a verified burst is for its request. */
  ghost predicate GoodBurst(cfg: Config, r: Req, emitted: seq<Token>) {
    && 0 < r.draft <= |r.tokens|
    && 1 <= |emitted| <= OutputRoom(Strip(r))
    && |emitted| <= r.draft + 1 && emitted[..|emitted| - 1] == DraftTokens(r)[..|emitted| - 1]
  }

  lemma RefBurst(net: Net, cfg: Config, s: Sys, k: nat)
    requires k < |s.reqs| && s.pool.bs >= 1 && Planned(s.pool.bs, |s.pool.ref|, s.reqs[k]) && s.reqs[k].draft > 0
    ensures var r := s.reqs[k]; var emitted := EmittedFor(cfg, r, RefChoices(net, s, k));
      && Decoding(Strip(r))
      && emitted == Burst(Target(net, r.policy), Strip(r), cfg.eos, DraftTokens(r))
      && GoodBurst(cfg, r, emitted)
  {
    hide BlocksNeededFor, Trimmed, Verified, Choices, Burst;
    var r := s.reqs[k];
    BurstUnfolds(Target(net, r.policy), Strip(r), cfg.eos, DraftTokens(r));
    BurstIsGreedy(Target(net, r.policy), Strip(r), cfg.eos, DraftTokens(r));
  }

  lemma BurstUnfolds(next: seq<Token> -> Token, r: Req, eos: Option<Token>, drafts: seq<Token>)
    ensures |Choices(next, r.tokens, drafts)| == |drafts| + 1
    ensures Burst(next, r, eos, drafts) == Trimmed(r, eos, Verified(drafts, Choices(next, r.tokens, drafts)))
  {
  }

  /** The request a burst leaves, before truncation: every kept position is already right. */
  lemma CommitLocal(net: Net, cfg: Config, s: Sys, k: nat, emitted: seq<Token>)
    requires KvInv(net, s) && Ready(net, s, k) && s.pool.bs >= 1
    requires Planned(s.pool.bs, |s.pool.ref|, s.reqs[k]) && GoodBurst(cfg, s.reqs[k], emitted)
    ensures var base := Strip(s.reqs[k]); var tokens := base.tokens + emitted; var keep := |tokens| - 1;
      var r := base.(tokens := tokens, computed := keep, scheduled := 0);
      Local(net, s.pool, s.mem, Rest(s.reqs, k), r) && PublishReady(s.pool, r)
  {
    hide KvInv, Local, Rest, Holds, PublishReady, BlocksNeededFor, OutputRoom;
    var r, rest := s.reqs[k], Rest(s.reqs, k);
    var base := Strip(r);
    var tokens := base.tokens + emitted;
    var keep := |tokens| - 1;
    At(net, s, k);
    RunningReady(net, s.pool, s.mem, rest, r);
    HoldsLess(net, s.mem, r.table, r.tokens, r.computed + r.scheduled, keep);
    AdvanceStep(net, s.pool, s.mem, rest, r, keep);
    CommittedPrefix(r, emitted);
    HistoryStep(net, s.pool, s.mem, rest, r.(computed := keep), base.(tokens := tokens, computed := keep, scheduled := 0));
  }

  lemma CommittedPrefix(r: Req, emitted: seq<Token>)
    requires 0 < r.draft <= |r.tokens| && 1 <= |emitted| <= r.draft + 1
    requires emitted[..|emitted| - 1] == DraftTokens(r)[..|emitted| - 1]
    ensures var keep := |Strip(r).tokens| + |emitted| - 1;
      keep <= |r.tokens| && (Strip(r).tokens + emitted)[..keep] == r.tokens[..keep]
  {
    var base := Strip(r).tokens;
    var keep := |base| + |emitted| - 1;
    assert r.tokens == base + DraftTokens(r);
    assert (base + emitted)[..keep] == base + emitted[..|emitted| - 1];
    assert r.tokens[..keep] == base + DraftTokens(r)[..|emitted| - 1];
  }

  /** Commit, truncate, publish and complete one speculative request. */
  lemma CommitOneInv(net: Net, cfg: Config, s: Sys, ids: seq<nat>, k: nat, emitted: seq<Token>)
    requires StepInv(net, s, [k] + ids) && Ready(net, s, k) && k < |s.reqs| && GoodBurst(cfg, s.reqs[k], emitted)
    ensures s.pool.bs >= 1
    ensures StepInv(net, CommitOne(cfg, s, k, emitted), ids) && SameOthers(s, CommitOne(cfg, s, k, emitted), k)
  {
    hide KvInv, Local, Rest, AllShaped, AllShapedBut, Queues, Holds, PublishReady, BlocksNeededFor, Publish, CompleteIfDone, TruncateKv;
    KvShape(net, s);
    ShapedButOpen(s.pool.bs, |s.pool.ref|, s.reqs, k, ids);
    var base, rest := Strip(s.reqs[k]), Rest(s.reqs, k);
    var tokens := base.tokens + emitted;
    var keep := |tokens| - 1;
    var r := base.(tokens := tokens, computed := keep, scheduled := 0);
    CommitLocal(net, cfg, s, k, emitted);
    TruncateStep(net, s.pool, s.mem, rest, r, keep);
    var (p, r') := TruncateKv(s.pool, r, keep);
    FrameShape(s.pool, s.mem, p, s.mem, rest);
    PublishPending(net, s, ids, k, p, r');
    var s1 := Publish(SetReq(s, k, p, r'), k);
    CompleteInv(net, cfg, s1, ids, k);
  }

  // ----- whole batches -----

  ghost predicate SameBut(s: Sys, s': Sys, ids: seq<nat>) {
    && s'.mem == s.mem && |s'.reqs| == |s.reqs|
    && forall j :: 0 <= j < |s.reqs| && j !in ids ==> s'.reqs[j] == s.reqs[j]
  }

  lemma SameButStep(s: Sys, s1: Sys, s2: Sys, ids: seq<nat>)
    requires ids != [] && SameOthers(s, s1, ids[0]) && SameBut(s1, s2, ids[1..])
    ensures SameBut(s, s2, ids)
  {
  }

  lemma {:induction false} MapRefSame(net: Net, s: Sys, s': Sys, ids: seq<nat>)
    requires |s'.reqs| == |s.reqs| && forall k :: k in ids && k < |s.reqs| ==> s'.reqs[k] == s.reqs[k]
    ensures MapRefChoices(net, s', ids) == MapRefChoices(net, s, ids)
    ensures MapRefTokens(net, s', ids) == MapRefTokens(net, s, ids)
  {
    if ids != [] {
      assert ids[0] in ids && forall k :: k in ids[1..] ==> k in ids;
      MapRefSame(net, s, s', ids[1..]);
    }
  }

  /** The first id of a distinct list is scheduled once. */
  lemma HeadApart(bs: nat, blocks: nat, reqs: seq<Req>, ids: seq<nat>, others: seq<nat>)
    requires bs >= 1 && ids != [] && AllShaped(bs, blocks, reqs, ids + others)
    ensures ids + others == [ids[0]] + (ids[1..] + others)
    ensures ids[0] < |reqs| && Planned(bs, blocks, reqs[ids[0]])
    ensures ids[0] !in ids[1..] && ids[0] !in others
  {
    hide Shaped, Planned;
    assert ids + others == [ids[0]] + (ids[1..] + others);
    ShapedButOpen(bs, blocks, reqs, ids[0], ids[1..] + others);
    assert forall j :: j in ids[1..] || j in others ==> j in ids[1..] + others;
  }

  lemma {:induction false} CommitAllInv(net: Net, cfg: Config, s: Sys, ids: seq<nat>, others: seq<nat>)
    requires StepInv(net, s, ids + others)
    requires forall k :: k in ids ==> Ready(net, s, k) && s.reqs[k].draft > 0
    ensures var (s', emitted) := CommitAll(cfg, s, ids, MapRefChoices(net, s, ids));
      StepInv(net, s', others) && SameBut(s, s', ids)
    decreases |ids|
  {
    hide KvInv, AllShaped, Queues, Ready, CommitOne, EmittedFor, RefChoices, GoodBurst;
    KvShape(net, s);
    if ids == [] {
      assert ids + others == others;
    } else {
      var k := ids[0];
      HeadApart(s.pool.bs, |s.pool.ref|, s.reqs, ids, others);
      assert k in ids && forall j :: j in ids[1..] ==> j in ids;
      RefBurst(net, cfg, s, k);
      var emitted := EmittedFor(cfg, s.reqs[k], RefChoices(net, s, k));
      CommitOneInv(net, cfg, s, ids[1..] + others, k, emitted);
      var s1 := CommitOne(cfg, s, k, emitted);
      MapRefSame(net, s, s1, ids[1..]);
      ReadyOthers(net, s, s1, k);
      CommitAllInv(net, cfg, s1, ids[1..], others);
      SameButStep(s, s1, CommitAll(cfg, s1, ids[1..], MapRefChoices(net, s1, ids[1..])).0, ids);
    }
  }

  lemma ReadyOthers(net: Net, s: Sys, s': Sys, k: nat)
    requires SameOthers(s, s', k)
    ensures forall j: nat :: j != k && Ready(net, s, j) ==> Ready(net, s', j) && s'.reqs[j] == s.reqs[j]
  {
    hide Holds;
  }

  lemma {:induction false} PostAllInv(net: Net, cfg: Config, s: Sys, ids: seq<nat>)
    requires StepInv(net, s, ids)
    requires forall k :: k in ids ==> Ready(net, s, k) && s.reqs[k].draft == 0
    ensures var (s', emitted) := PostAll(cfg, s, ids, MapRefTokens(net, s, ids));
      SysInv(net, s') && s'.mem == s.mem
    decreases |ids|
  {
    hide KvInv, AllShaped, Queues, Ready, PostOne;
    KvShape(net, s);
    if ids != [] {
      var k := ids[0];
      assert ids + [] == ids && ids[1..] + [] == ids[1..];
      HeadApart(s.pool.bs, |s.pool.ref|, s.reqs, ids, []);
      assert k in ids && forall j :: j in ids[1..] ==> j in ids;
      var token := RefToken(net, s, k);
      PostOneInv(net, cfg, s, ids[1..], k, token);
      var s1 := PostOne(cfg, s, k, token);
      MapRefSame(net, s, s1, ids[1..]);
      ReadyOthers(net, s, s1, k);
      PostAllInv(net, cfg, s1, ids[1..]);
    }
  }

  lemma {:induction false} PartitionMembers(s: Sys, ids: seq<nat>)
    ensures forall k :: k in SpecIds(s, ids) || k in NormalIds(s, ids) <==> k in ids
    ensures forall k :: k in SpecIds(s, ids) ==> k < |s.reqs| && s.reqs[k].draft > 0
    ensures forall k :: k in NormalIds(s, ids) && k < |s.reqs| ==> s.reqs[k].draft == 0
  {
    if ids != [] {
      PartitionMembers(s, ids[1..]);
      assert forall k :: k in ids <==> k == ids[0] || k in ids[1..];
    }
  }

  lemma {:induction false} PartitionDistinct(s: Sys, ids: seq<nat>)
    requires Distinct(ids)
    ensures Distinct(SpecIds(s, ids)) && Distinct(NormalIds(s, ids))
    ensures forall k :: k in SpecIds(s, ids) ==> k !in NormalIds(s, ids)
  {
    if ids != [] {
      PartitionDistinct(s, ids[1..]);
      PartitionMembers(s, ids[1..]);
      assert ids[0] !in ids[1..];
      DistinctCons(ids[0], SpecIds(s, ids[1..]));
      DistinctCons(ids[0], NormalIds(s, ids[1..]));
    }
  }

  lemma DistinctCons(x: nat, s: seq<nat>)
    requires Distinct(s) && x !in s
    ensures Distinct([x] + s)
  {
    forall i, j | 0 <= i < j < |s| + 1
      ensures ([x] + s)[i] != ([x] + s)[j]
    {
      assert ([x] + s)[j] == s[j - 1];
    }
  }

  lemma DistinctConcat(a: seq<nat>, b: seq<nat>)
    requires Distinct(a) && Distinct(b) && forall k :: k in a ==> k !in b
    ensures Distinct(a + b)
    ensures forall k :: k in a + b <==> k in a || k in b
  {
    var ab := a + b;
    forall i, j | 0 <= i < j < |ab|
      ensures ab[i] != ab[j]
    {
      assert i < |a| <= j ==> a[i] in a && b[j - |a|] in b;
    }
  }

  /** Speculative requests first: the same batch in another order. */
  lemma Partition(bs: nat, blocks: nat, s: Sys, ids: seq<nat>)
    requires bs >= 1 && AllShaped(bs, blocks, s.reqs, ids)
    ensures AllShaped(bs, blocks, s.reqs, SpecIds(s, ids) + NormalIds(s, ids)) && Distinct(ids)
  {
    hide Planned, Shaped;
    PartitionMembers(s, ids);
    PartitionDistinct(s, ids);
    DistinctConcat(SpecIds(s, ids), NormalIds(s, ids));
    var all := SpecIds(s, ids) + NormalIds(s, ids);
    assert forall k: nat :: k in all <==> k in ids;
  }

  lemma {:induction false} MapsAgree(net: Net, s: Sys, ids: seq<nat>)
    requires forall k :: k in ids ==> Ready(net, s, k)
    ensures MapTokens(net, s, ids) == MapRefTokens(net, s, ids)
  {
    hide Ready, PagedToken, RefToken;
    if ids != [] {
      assert ids[0] in ids && forall k :: k in ids[1..] ==> k in ids;
      PagedTokenIsReference(net, s, ids[0]);
      MapsAgree(net, s, ids[1..]);
    }
  }

  lemma {:induction false} ChoicesAgree(net: Net, s: Sys, ids: seq<nat>)
    requires s.pool.bs >= 1
    requires forall k :: k in ids ==> Ready(net, s, k) && Planned(s.pool.bs, |s.pool.ref|, s.reqs[k]) && s.reqs[k].draft > 0
    ensures MapChoices(net, s, ids) == MapRefChoices(net, s, ids)
  {
    hide Ready, Planned, PagedChoices, RefChoices;
    if ids != [] {
      assert ids[0] in ids && forall k :: k in ids[1..] ==> k in ids;
      PagedChoicesAreReference(net, s, ids[0]);
      ChoicesAgree(net, s, ids[1..]);
    }
  }

  // ----- the host never reads the pool's contents -----

  lemma CommitOneMem(cfg: Config, s: Sys, k: nat, emitted: seq<Token>, mem: Memory)
    requires k < |s.reqs| && s.pool.bs >= 1
    ensures CommitOne(cfg, s.(mem := mem), k, emitted) == CommitOne(cfg, s, k, emitted).(mem := mem)
  {
    hide TruncateKv, PublishFullBlocks, DecrefAll, FinishReason, Without;
  }

  lemma PostOneMem(cfg: Config, s: Sys, k: nat, token: Option<Token>, mem: Memory)
    requires k < |s.reqs| && s.pool.bs >= 1
    ensures PostOne(cfg, s.(mem := mem), k, token) == PostOne(cfg, s, k, token).(mem := mem)
  {
    hide PublishFullBlocks, DecrefAll, FinishReason, Without;
  }

  lemma {:induction false} CommitAllMem(cfg: Config, s: Sys, ids: seq<nat>, choices: seq<seq<Token>>, mem: Memory)
    ensures CommitAll(cfg, s.(mem := mem), ids, choices).0 == CommitAll(cfg, s, ids, choices).0.(mem := mem)
    ensures CommitAll(cfg, s.(mem := mem), ids, choices).1 == CommitAll(cfg, s, ids, choices).1
    decreases |ids|
  {
    hide CommitOne, EmittedFor;
    if ids != [] && choices != [] && ids[0] < |s.reqs| && s.pool.bs != 0 {
      var emitted := EmittedFor(cfg, s.reqs[ids[0]], choices[0]);
      CommitOneMem(cfg, s, ids[0], emitted, mem);
      CommitAllMem(cfg, CommitOne(cfg, s, ids[0], emitted), ids[1..], choices[1..], mem);
    }
  }

  lemma {:induction false} PostAllMem(cfg: Config, s: Sys, ids: seq<nat>, tokens: seq<Option<Token>>, mem: Memory)
    ensures PostAll(cfg, s.(mem := mem), ids, tokens).0 == PostAll(cfg, s, ids, tokens).0.(mem := mem)
    ensures PostAll(cfg, s.(mem := mem), ids, tokens).1 == PostAll(cfg, s, ids, tokens).1
    decreases |ids|
  {
    hide PostOne;
    if ids != [] && tokens != [] && ids[0] < |s.reqs| && s.pool.bs != 0 {
      PostOneMem(cfg, s, ids[0], tokens[0], mem);
      PostAllMem(cfg, PostOne(cfg, s, ids[0], tokens[0]), ids[1..], tokens[1..], mem);
    }
  }

  /** The host's view: everything but the pool's contents. */
  function Host(s: Sys): Sys {
    s.(mem := [])
  }

  lemma {:induction false} IdsHost(s: Sys, s': Sys, ids: seq<nat>)
    requires s'.reqs == s.reqs
    ensures SpecIds(s', ids) == SpecIds(s, ids) && NormalIds(s', ids) == NormalIds(s, ids)
  {
    if ids != [] {
      IdsHost(s, s', ids[1..]);
    }
  }

  lemma RefBatchMem(net: Net, cfg: Config, s: Sys, ids: seq<nat>, mem: Memory)
    ensures RefBatch(net, cfg, s.(mem := mem), ids)
         == (RefBatch(net, cfg, s, ids).0.(mem := mem), RefBatch(net, cfg, s, ids).1)
  {
    hide CommitAll, PostAll, SpecIds, NormalIds, MapRefChoices, MapRefTokens;
    var specs, normal := SpecIds(s, ids), NormalIds(s, ids);
    IdsHost(s, s.(mem := mem), ids);
    MapRefSame(net, s, s.(mem := mem), specs);
    var choices := MapRefChoices(net, s, specs);
    CommitAllMem(cfg, s, specs, choices, mem);
    var s2 := CommitAll(cfg, s, specs, choices).0;
    MapRefSame(net, s2, s2.(mem := mem), normal);
    PostAllMem(cfg, s2, normal, MapRefTokens(net, s2, normal), mem);
  }

  // ----- the batch theorem -----

  lemma NormalsUntouched(s: Sys, s2: Sys, specs: seq<nat>, normal: seq<nat>)
    requires SameBut(s, s2, specs) && (forall k :: k in specs ==> k !in normal)
    requires forall k :: k in normal ==> k < |s.reqs| && s.reqs[k].draft == 0
    ensures forall k :: k in normal ==> k < |s2.reqs| && s2.reqs[k].draft == 0
  {
  }

  lemma AllPlanned(bs: nat, blocks: nat, reqs: seq<Req>, a: seq<nat>, b: seq<nat>)
    requires bs >= 1 && AllShaped(bs, blocks, reqs, a + b)
    ensures forall k :: k in a || k in b ==> k < |reqs| && Planned(bs, blocks, reqs[k])
  {
    hide Planned, Shaped;
    assert forall k :: k in a || k in b ==> k in a + b;
  }

  /** Speculative half: run, verify, commit. */
  lemma SpecHalf(net: Net, cfg: Config, s: Sys, specs: seq<nat>, normal: seq<nat>)
    requires StepInv(net, s, specs + normal)
    requires forall k :: k in specs ==> k < |s.reqs| && s.reqs[k].draft > 0
    ensures var s1 := RunAll(net, s, specs);
      var (s2, e1) := CommitAll(cfg, s1, specs, MapChoices(net, s1, specs));
      var (t2, e2) := CommitAll(cfg, s, specs, MapRefChoices(net, s, specs));
      && s2 == t2.(mem := s2.mem) && e1 == e2
      && StepInv(net, s2, normal) && SameBut(s1, s2, specs) && s1.reqs == s.reqs
  {
    hide KvInv, AllShaped, Queues, Ready, RunAll, CommitAll, Planned, MapChoices, MapRefChoices;
    KvShape(net, s);
    var all := specs + normal;
    assert forall k :: k in specs ==> k in all;
    RunAllInv(net, s, all, specs, {});
    var s1 := RunAll(net, s, specs);
    AllPlanned(s1.pool.bs, |s1.pool.ref|, s1.reqs, specs, normal);
    ChoicesAgree(net, s1, specs);
    MapRefSame(net, s, s1, specs);
    CommitAllInv(net, cfg, s1, specs, normal);
    CommitAllMem(cfg, s, specs, MapRefChoices(net, s, specs), s1.mem);
    assert s1 == s.(mem := s1.mem);
  }

  /** Ordinary half: run, sample, advance. */
  lemma NormalHalf(net: Net, cfg: Config, s2: Sys, t2: Sys, normal: seq<nat>)
    requires StepInv(net, s2, normal) && s2 == t2.(mem := s2.mem)
    requires forall k :: k in normal ==> k < |s2.reqs| && s2.reqs[k].draft == 0
    ensures var s3 := RunAll(net, s2, normal);
      var (s4, e1) := PostAll(cfg, s3, normal, MapTokens(net, s3, normal));
      var (t4, e2) := PostAll(cfg, t2, normal, MapRefTokens(net, t2, normal));
      && s4 == t4.(mem := s4.mem) && e1 == e2 && SysInv(net, s4)
  {
    hide KvInv, AllShaped, Queues, Ready, RunAll, PostAll, MapTokens, MapRefTokens;
    RunAllInv(net, s2, normal, normal, {});
    var s3 := RunAll(net, s2, normal);
    MapsAgree(net, s3, normal);
    MapRefSame(net, t2, s3, normal);
    PostAllInv(net, cfg, s3, normal);
    PostAllMem(cfg, t2, normal, MapRefTokens(net, t2, normal), s3.mem);
    assert s3 == t2.(mem := s3.mem);
  }

  /** A batch on the paged pool keeps the system invariant, emits exactly what the
      recompute-from-scratch runner emits, and leaves the same host state. */
  lemma BatchRefines(net: Net, cfg: Config, s: Sys, ids: seq<nat>)
    requires StepInv(net, s, ids)
    ensures var (s', emitted) := PagedBatch(net, cfg, s, ids);
      && SysInv(net, s')
      && (Host(s'), emitted) == RefBatch(net, cfg, Host(s), ids)
  {
    hide KvInv, AllShaped, Queues, RunAll, CommitAll, PostAll, MapTokens, MapRefTokens, MapChoices, MapRefChoices, SpecIds, NormalIds, SysInv;
    KvShape(net, s);
    var specs, normal := SpecIds(s, ids), NormalIds(s, ids);
    Partition(s.pool.bs, |s.pool.ref|, s, ids);
    PartitionMembers(s, ids);
    PartitionDistinct(s, ids);
    AllPlanned(s.pool.bs, |s.pool.ref|, s.reqs, specs, normal);
    SpecHalf(net, cfg, s, specs, normal);
    var s1 := RunAll(net, s, specs);
    var (s2, e1) := CommitAll(cfg, s1, specs, MapChoices(net, s1, specs));
    var t2 := CommitAll(cfg, s, specs, MapRefChoices(net, s, specs)).0;
    NormalsUntouched(s1, s2, specs, normal);
    NormalHalf(net, cfg, s2, t2, normal);
    RefBatchMem(net, cfg, s, ids, []);
  }
}

/** A run that goes wrong: the bare invalidation of a running request, its recomputation, and a
    later request that shares what it republished.  The engine and the recompute-from-token-0
    runner then report different tokens. */
module StaleParent {
  import opened Kv
  import opened BlockPool
  import opened Requests
  import opened Ownership
  import opened SpecDecode
  import opened System
  import opened SystemInv
  import opened ScheduleInv
  import opened Engine
  import opened Runs

  // ----- a lone request's step -----

  function OneAtATime(): Config {
    Config(1, 8, 0, None)
  }

  lemma WaitingAlone(propose: Proposer, s: Sys, k: nat, p: Pool, r: Req, n: nat, q: Pool, r': Req)
    requires s.running == [] && s.waiting == [k] && k < |s.reqs| && s.pool.bs >= 1 && p.bs >= 1 && n >= 1
    requires Readmit(s.pool, s.reqs[k]) == (p, r) && TokensToSchedule(p, r, 8) == (p, n)
    requires AllocateForTokens(p, r, n) == Allocated(q, r', [])
    ensures Schedule(OneAtATime(), propose, s)
         == Scheduled(s.(pool := q, reqs := s.reqs[k := r'.(scheduled := n, status := Running)], waiting := [], running := [k]), [k])
  {
    hide Readmit, TokensToSchedule, AllocateForTokens, Preempt;
    var pass := Pass(s, [], 8);
    assert ConsiderRunning(OneAtATime(), propose, pass, []) == pass;
    var popped := pass.(s := s.(waiting := []));
    assert s.waiting[1..] == [];
    var taken := ConsiderWaiting(popped, k).0;
    assert taken.scheduled == [k] && Full(OneAtATime(), taken);
    assert s.reqs[k := r'.(scheduled := n)][k := r'.(scheduled := n, status := Running)] == s.reqs[k := r'.(scheduled := n, status := Running)];
    assert ScheduleWaiting(OneAtATime(), taken, []) == taken.(s := taken.s.(waiting := [] + taken.s.waiting));
    assert [] + [k] == [k];
  }

  lemma RunningAlone(cfg: Config, propose: Proposer, s: Sys, k: nat, n: nat, q: Pool, r': Req)
    requires s.running == [k] && s.waiting == [] && k < |s.reqs| && s.pool.bs >= 1 && n >= 1 && s.reqs[k].draft == 0
    requires cfg.maxSeqs >= 1 && cfg.maxBatched >= 1
    requires MaybeAttachDrafts(cfg, propose, s.pool, s.reqs[k], cfg.maxBatched) == (s.pool, s.reqs[k])
    requires TokensToSchedule(s.pool, s.reqs[k], cfg.maxBatched) == (s.pool, n)
    requires AllocateForTokens(s.pool, s.reqs[k], n) == Allocated(q, r', [])
    ensures Schedule(cfg, propose, s) == Scheduled(s.(pool := q, reqs := s.reqs[k := r'.(scheduled := n)]), [k])
  {
    hide TokensToSchedule, AllocateForTokens, Preempt, MaybeAttachDrafts;
    var pass := Pass(s, [], cfg.maxBatched);
    assert [k][1..] == [];
    var taken := ConsiderOne(cfg, propose, pass, k);
    assert ConsiderRunning(cfg, propose, pass, [k]) == ConsiderRunning(cfg, propose, taken, []) == taken;
    assert taken.scheduled == [k] && taken.s.waiting == [];
    assert ScheduleWaiting(cfg, taken, []) == taken.(s := taken.s.(waiting := [] + taken.s.waiting));
  }

  /** The batch of one ordinary request, on both runners. */
  lemma BatchAlone(net: Net, cfg: Config, mid: Sys, k: nat)
    requires k < |mid.reqs| && mid.reqs[k].draft == 0 && mid.pool.bs >= 1
    ensures var ran := RunOne(net, mid, k); var token := PagedToken(net, ran, k);
      PagedBatch(net, cfg, mid, [k]) == (PostOne(cfg, ran, k, token), [Emission(k, if token.Some? then [token.value] else [])])
    ensures var token := RefToken(net, Host(mid), k);
      RefBatch(net, cfg, Host(mid), [k]) == (PostOne(cfg, Host(mid), k, token), [Emission(k, if token.Some? then [token.value] else [])])
  {
    hide RunOne, PagedToken, RefToken, PostOne, RunAll, PostAll, CommitAll, MapTokens, MapRefTokens, MapChoices, MapRefChoices, SpecIds, NormalIds;
    var ran := RunOne(net, mid, k);
    OneId(net, mid, k);
    OneId(net, Host(mid), k);
    OneBatch(net, cfg, mid, k);
    OneBatch(net, cfg, Host(mid), k);
    RanShape(net, mid, k);
    OneId(net, ran, k);
    OnePost(cfg, ran, k, PagedToken(net, ran, k));
    OnePost(cfg, Host(mid), k, RefToken(net, Host(mid), k));
    var none: seq<Emission> := [];
    assert forall e: Emission :: none + [e] == [e];
  }

  lemma OneId(net: Net, s: Sys, k: nat)
    requires k < |s.reqs| && s.reqs[k].draft == 0
    ensures SpecIds(s, [k]) == [] && NormalIds(s, [k]) == [k]
    ensures MapTokens(net, s, [k]) == [PagedToken(net, s, k)] && MapRefTokens(net, s, [k]) == [RefToken(net, s, k)]
  {
    hide PagedToken, RefToken;
    assert [k][1..] == [];
    assert MapTokens(net, s, []) == [] && MapRefTokens(net, s, []) == [];
    assert SpecIds(s, []) == [] && NormalIds(s, []) == [];
  }

  lemma RanShape(net: Net, mid: Sys, k: nat)
    requires k < |mid.reqs|
    ensures var ran := RunOne(net, mid, k); ran == mid.(mem := ran.mem)
  {
    hide Forward;
  }

  lemma OnePost(cfg: Config, s: Sys, k: nat, token: Option<Token>)
    requires k < |s.reqs| && s.pool.bs >= 1
    ensures PostAll(cfg, s, [k], [token]) == (PostOne(cfg, s, k, token), [Emission(k, if token.Some? then [token.value] else [])])
  {
    hide PostOne;
    assert [k][1..] == [] && [token][1..] == [];
    var s' := PostOne(cfg, s, k, token);
    assert PostAll(cfg, s', [], []) == (s', []);
    var emission := Emission(k, if token.Some? then [token.value] else []);
    assert [emission] + [] == [emission];
  }

  lemma OneBatch(net: Net, cfg: Config, mid: Sys, k: nat)
    requires k < |mid.reqs| && mid.pool.bs >= 1
    ensures RunAll(net, mid, [k]) == RunOne(net, mid, k) && RunAll(net, mid, []) == mid
    ensures forall choices: seq<seq<Token>> :: CommitAll(cfg, mid, [], choices) == (mid, [])
  {
    hide RunOne;
    assert [k][1..] == [];
    assert RunAll(net, RunOne(net, mid, k), []) == RunOne(net, mid, k);
  }

  function Reports(k: nat, token: Option<Token>): seq<Emission> {
    [Emission(k, if token.Some? then [token.value] else [])]
  }

  lemma PostMem(cfg: Config, s: Sys, k: nat, token: Option<Token>, mem: Memory)
    requires k < |s.reqs| && s.pool.bs >= 1
    ensures PostOne(cfg, s.(mem := mem), k, token) == PostOne(cfg, s, k, token).(mem := mem)
  {
    hide PublishLoop, DecrefAll, FinishReason;
  }

  /** A step that runs one request, on both runners; `same` if they sample the same token. */
  lemma StepAlone(net: Net, propose: Proposer, s: Sys, k: nat, mid: Sys, mem: Memory, token: Option<Token>, token': Option<Token>)
    requires Schedule(OneAtATime(), propose, s) == Scheduled(mid, [k]) && k < |mid.reqs| && mid.reqs[k].draft == 0 && mid.pool.bs >= 1
    requires RunOne(net, mid, k) == mid.(mem := mem)
    requires PagedToken(net, mid.(mem := mem), k) == token && RefToken(net, mid, k) == token'
    ensures PagedStep(net, OneAtATime(), propose, s) == Stepped(PostOne(OneAtATime(), mid.(mem := mem), k, token), Reports(k, token))
    ensures RefStep(net, OneAtATime(), propose, Host(s)) == Stepped(Host(PostOne(OneAtATime(), mid.(mem := mem), k, token')), Reports(k, token'))
  {
    hide ScheduleLoop, RunOne, PagedToken, PostOne, RefNext, PagedBatch, RefBatch;
    ScheduleHost(OneAtATime(), propose, s, OneAtATime().maxSeqs + |s.running| + |s.waiting| + 1);
    BatchAlone(net, OneAtATime(), mid, k);
    PostMem(OneAtATime(), mid, k, token', mem);
    PostMem(OneAtATime(), mid, k, token', []);
    assert RefToken(net, Host(mid), k) == token';
  }

  // ----- the run -----

  /** Blocks of one token.  A position's entry is the position; the token sampled is the entry
      of position 1, if there is one. */
  function Peek(): Net {
    Net((before: seq<Cell>, _) => |before|, (cells: seq<Cell>, _, _) => if |cells| >= 2 then cells[1] else 1)
  }

  function Ask(maxTokens: nat): Params {
    Params(maxTokens, 0, true, {}, false, 0)
  }

  function R(tokens: seq<Token>, prompt: nat, computed: nat, scheduled: nat, table: seq<nat>, shared: nat, published: nat, parent: Hash,
             epoch: nat, maxTokens: nat, status: Status): Req {
    Req(tokens, prompt, computed, scheduled, table, shared, published, parent, epoch, 0, maxTokens, 0, true, {}, false, 0, status, NoKv, None)
  }

  function P(free: seq<nat>, ref: seq<int>, index: map<Hash, seq<nat>>, lru: seq<Entry>, epoch: nat): Pool {
    Pool(1, true, free, ref, Cache(index, lru), epoch)
  }

  function H1(): Hash { Link(Root, [1]) }
  function H2(): Hash { Link(H1(), [1]) }
  function H3(): Hash { Link(H2(), [1]) }

  function Mem0(): Memory { [[7], [7], [7], [7]] }
  function Mem1(): Memory { [[0], [7], [7], [7]] }
  function Mem2(): Memory { [[0], [1], [7], [7]] }
  function Mem3(): Memory { [[0], [1], [0], [7]] }
  function Mem4(): Memory { [[0], [1], [0], [2]] }

  function NoIndex(): map<Hash, seq<nat>> { map[] }

  function S1(): Sys {
    Sys(P([0, 1, 2, 3], [0, 0, 0, 0], NoIndex(), [], 0), Mem0(), [R([1], 1, 0, 0, [], 0, 0, Root, 0, 2, Waiting)], [0], [])
  }

  function M1(): Sys {
    Sys(P([1, 2, 3], [1, 0, 0, 0], NoIndex(), [], 0), Mem0(), [R([1], 1, 0, 1, [0], 0, 0, Root, 0, 2, Running)], [], [0])
  }

  function S2(): Sys {
    Sys(P([1, 2, 3], [2, 0, 0, 0], map[H1() := [0]], [Entry(H1(), 0)], 0), Mem1(), [R([1, 1], 1, 1, 0, [0], 0, 1, H1(), 0, 2, Running)], [], [0])
  }

  function S3(): Sys {
    Sys(P([0, 1, 2, 3], [0, 0, 0, 0], NoIndex(), [], 1), Mem1(), [R([1, 1], 1, 0, 0, [], 0, 0, H1(), 0, 2, Running)], [], [0])
  }

  function M3(): Sys {
    Sys(P([2, 3], [1, 1, 0, 0], NoIndex(), [], 1), Mem1(), [R([1, 1], 1, 0, 2, [0, 1], 0, 0, H1(), 1, 2, Running)], [], [0])
  }

  function A(): Req {
    R([1, 1, 1], 1, 0, 0, [], 0, 0, H3(), 1, 2, Finished)
  }

  function S4(): Sys {
    Sys(P([2, 3], [1, 1, 0, 0], map[H2() := [0], H3() := [1]], [Entry(H2(), 0), Entry(H3(), 1)], 1), Mem2(), [A()], [], [])
  }

  function S5(): Sys {
    S4().(reqs := [A(), R([1], 1, 0, 0, [], 0, 0, Root, 0, 1, Waiting)], waiting := [1])
  }

  function M5(): Sys {
    Sys(P([3], [1, 1, 1, 0], map[H2() := [0], H3() := [1]], [Entry(H2(), 0), Entry(H3(), 1)], 1), Mem2(),
        [A(), R([1], 1, 0, 1, [2], 0, 0, Root, 1, 1, Running)], [], [1])
  }

  /** The pool just before the first request gives its blocks back, and the second its own. */
  function Q2(): Pool {
    P([2, 3], [2, 2, 0, 0], map[H2() := [0], H3() := [1]], [Entry(H2(), 0), Entry(H3(), 1)], 1)
  }

  function Q3(): Pool {
    P([3], [1, 1, 2, 0], Index(), [Entry(H2(), 0), Entry(H3(), 1), Entry(H1(), 2)], 1)
  }

  function B(): Req {
    R([1, 1], 1, 0, 0, [], 0, 0, H1(), 1, 1, Finished)
  }

  function Index(): map<Hash, seq<nat>> {
    map[H2() := [0], H3() := [1], H1() := [2]]
  }

  function S6(): Sys {
    Sys(P([3], [1, 1, 1, 0], Index(), [Entry(H2(), 0), Entry(H3(), 1), Entry(H1(), 2)], 1), Mem3(), [A(), B()], [], [])
  }

  function Lru7(): seq<Entry> { [Entry(H3(), 1), Entry(H1(), 2), Entry(H2(), 0)] }

  function S7(): Sys {
    Sys(P([3], [2, 1, 2, 0], Index(), Lru7(), 1), Mem3(), [A(), B(), R([1, 1, 5], 3, 2, 0, [2, 0], 2, 2, H2(), 0, 1, Waiting)], [2], [])
  }

  function M7(): Sys {
    Sys(P([], [2, 1, 2, 1], Index(), Lru7(), 1), Mem3(), [A(), B(), R([1, 1, 5], 3, 2, 1, [2, 0, 3], 2, 2, H2(), 1, 1, Running)], [], [2])
  }

  // ----- blocks of one slot -----

  lemma {:induction false} FlatUnits(mem: Memory, table: seq<nat>)
    requires MemoryShape(mem, 1) && InPool(table, |mem|)
    ensures |Flat(mem, table)| == |table| && forall i :: 0 <= i < |table| ==> Flat(mem, table)[i] == mem[table[i]][0]
  {
    if table != [] {
      FlatUnits(mem, table[..|table| - 1]);
    }
  }

  lemma ForwardUnit(net: Net, mem: Memory, table: seq<nat>, tokens: seq<Token>, p: nat)
    requires MemoryShape(mem, 1) && InPool(table, |mem|) && p < |table| && p < |tokens|
    ensures p <= |Flat(mem, table)|
    ensures ForwardOne(net, mem, 1, table, tokens, p) == mem[table[p] := [net.kv(Flat(mem, table)[..p], tokens[p])]]
  {
    hide Flat;
    FlatUnits(mem, table);
    FlatLength(mem, 1, table);
    SlotDecodes(table, 1, p);
    var cell := net.kv(Flat(mem, table)[..p], tokens[p]);
    assert p / 1 == p && p % 1 == 0;
    assert mem[table[p]][0 := cell] == [cell];
  }

  lemma PublishUnit(p: Pool, tokens: seq<Token>, table: seq<nat>, i: nat, full: nat, parent: Hash)
    requires p.bs == 1 && i < full <= |table| && i < |tokens| && table[i] < |p.ref| && Link(parent, [tokens[i]]) !in p.cache.index
    ensures var h := Link(parent, [tokens[i]]);
      PublishLoop(p, tokens, table, i, full, parent)
      == PublishLoop(p.(ref := p.ref[table[i] := p.ref[table[i]] + 1],
                        cache := Cache(p.cache.index[h := [table[i]]], p.cache.lru + [Entry(h, table[i])])), tokens, table, i + 1, full, h)
  {
    assert BlockTokens(tokens, 1, i) == [tokens[i]];
    var h := Link(parent, [tokens[i]]);
    assert Insert(p.cache, Entry(h, table[i])).0 == Cache(p.cache.index[h := [table[i]]], p.cache.lru + [Entry(h, table[i])]) by {
      assert [] + [table[i]] == [table[i]];
    }
  }

  lemma PublishNothing(p: Pool, tokens: seq<Token>, table: seq<nat>, i: nat, full: nat, parent: Hash)
    requires i >= full && full <= |table|
    ensures PublishLoop(p, tokens, table, i, full, parent) == (p, i, parent)
  {
  }

  lemma ReleaseOne(p: Pool, b: nat)
    ensures DecrefAll(p, [b]) == Decref(p, b)
  {
    assert [b][1..] == [];
    assert DecrefAll(Decref(p, b), []) == Decref(p, b);
  }

  lemma ReleaseTwo(p: Pool, b: nat, c: nat)
    ensures DecrefAll(p, [b, c]) == Decref(Decref(p, b), c)
  {
    assert [b, c][1..] == [c];
    ReleaseOne(Decref(p, b), c);
  }

  // ----- the run, step by step -----

  lemma BootIs()
    ensures Boot(1, 4, true, Mem0()) == Sys(P([0, 1, 2, 3], [0, 0, 0, 0], NoIndex(), [], 0), Mem0(), [], [], [])
  {
    var s := Boot(1, 4, true, Mem0());
    assert s.pool.free == [0, 1, 2, 3] && s.pool.ref == [0, 0, 0, 0];
  }

  lemma AddFirst()
    ensures HostOp(Boot(1, 4, true, Mem0()), Add([1], Ask(2))) == (S1(), Done)
  {
    hide Boot;
    BootIs();
    assert [] + [0] == [0];
    assert [] + [S1().reqs[0]] == S1().reqs;
  }

  lemma AllocateFirst()
    ensures var r := S1().reqs[0]; AllocateForTokens(S1().pool, r, 1) == Allocated(M1().pool, r.(table := [0]), [])
    ensures Readmit(S1().pool, S1().reqs[0]) == (S1().pool, S1().reqs[0]) && TokensToSchedule(S1().pool, S1().reqs[0], 8) == (S1().pool, 1)
  {
  }

  lemma StepFirst(propose: Proposer)
    ensures PagedStep(Peek(), OneAtATime(), propose, S1()) == Stepped(S2(), [Emission(0, [1])])
    ensures RefStep(Peek(), OneAtATime(), propose, Host(S1())) == Stepped(Host(S2()), [Emission(0, [1])])
  {
    hide ScheduleLoop, AllocateForTokens, Readmit, TokensToSchedule, PostOne, RunOne, PagedToken, RefToken;
    var r := S1().reqs[0];
    AllocateFirst();
    WaitingAlone(propose, S1(), 0, S1().pool, r, 1, M1().pool, r.(table := [0]));
    RanFirst();
    PostFirst();
    StepAlone(Peek(), propose, S1(), 0, M1(), Mem1(), Some(1), Some(1));
  }

  lemma RanFirst()
    ensures RunOne(Peek(), M1(), 0) == M1().(mem := Mem1())
    ensures PagedToken(Peek(), M1().(mem := Mem1()), 0) == Some(1) && RefToken(Peek(), M1(), 0) == Some(1)
  {
    ForwardUnit(Peek(), Mem0(), [0], [1], 0);
    FlatUnits(Mem1(), [0]);
    assert Forward(Peek(), Mem1(), 1, [0], [1], 1, 1) == Mem1();
    assert Flat(Mem1(), [0])[..1] == [0];
  }

  lemma PublishFirst()
    ensures PublishLoop(M1().pool, [1], [0], 0, 1, Root) == (S2().pool, 1, H1())
  {
    hide PublishLoop;
    var q := S2().pool;
    PublishUnit(M1().pool, [1], [0], 0, 1, Root);
    assert M1().pool.ref[0 := 2] == q.ref;
    assert NoIndex()[H1() := [0]] == map[H1() := [0]] && [] + [Entry(H1(), 0)] == [Entry(H1(), 0)];
    PublishNothing(q, [1], [0], 1, 1, H1());
  }

  lemma PostFirst()
    ensures PostOne(OneAtATime(), M1().(mem := Mem1()), 0, Some(1)) == S2()
  {
    hide PublishLoop;
    PublishFirst();
    assert [1] + [1] == [1, 1];
  }

  lemma DropAll()
    ensures HostOp(S2(), Invalidate(Peek())) == (S3(), Done)
  {
    assert InvalidateAll(S2()).pool.free == [0, 1, 2, 3] && InvalidateAll(S2()).pool.ref == [0, 0, 0, 0];
    assert InvalidateAll(S2()).reqs == S3().reqs;
  }

  lemma AllocateSecond()
    ensures var r := S3().reqs[0]; AllocateForTokens(S3().pool, r, 2) == Allocated(M3().pool, r.(table := [0, 1], epoch := 1), [])
    ensures TokensToSchedule(S3().pool, S3().reqs[0], 8) == (S3().pool, 2)
  {
    var p0, p1, p2 := S3().pool, P([1, 2, 3], [1, 0, 0, 0], NoIndex(), [], 1), M3().pool;
    assert p0.free[1..] == p1.free && p1.free[1..] == p2.free && p0.ref[0 := 1] == p1.ref && p1.ref[1 := 1] == p2.ref;
    assert AllocBlock(p0) == Some((p1, 0)) && AllocBlock(p1) == Some((p2, 1));
    assert [] + [0] == [0] && [0] + [1] == [0, 1];
    assert Grow(p0, [], 2) == Grow(p1, [0], 2) == Grow(p2, [0, 1], 2) == (p2, [0, 1]);
    assert CowRange(p2, [0, 1], 0, 2) == CowRange(p2, [0, 1], 1, 2) == CowRange(p2, [0, 1], 2, 2) == (p2, [0, 1], []);
  }

  lemma StepSecond(propose: Proposer)
    ensures PagedStep(Peek(), OneAtATime(), propose, S3()) == Stepped(S4(), [Emission(0, [1])])
    ensures RefStep(Peek(), OneAtATime(), propose, Host(S3())) == Stepped(Host(S4()), [Emission(0, [1])])
  {
    hide ScheduleLoop, AllocateForTokens, Readmit, TokensToSchedule, PostOne, RunOne, PagedToken, RefToken;
    var r := S3().reqs[0];
    AllocateSecond();
    RunningAlone(OneAtATime(), propose, S3(), 0, 2, M3().pool, r.(table := [0, 1], epoch := 1));
    RanSecond();
    PostSecond();
    StepAlone(Peek(), propose, S3(), 0, M3(), Mem2(), Some(1), Some(1));
  }

  lemma RanSecond()
    ensures RunOne(Peek(), M3(), 0) == M3().(mem := Mem2())
    ensures PagedToken(Peek(), M3().(mem := Mem2()), 0) == Some(1) && RefToken(Peek(), M3(), 0) == Some(1)
  {
    ForwardUnit(Peek(), Mem1(), [0, 1], [1, 1], 0);
    ForwardUnit(Peek(), Mem1(), [0, 1], [1, 1], 1);
    FlatUnits(Mem1(), [0, 1]);
    FlatUnits(Mem2(), [0, 1]);
    assert Mem1()[0 := [0]] == Mem1();
    assert Forward(Peek(), Mem2(), 1, [0, 1], [1, 1], 2, 2) == Mem2();
    assert Flat(Mem2(), [0, 1])[..2] == [0, 1];
    CellsOf([1, 1]);
  }

  lemma PublishSecond()
    ensures PublishLoop(M3().pool, [1, 1], [0, 1], 0, 2, H1()) == (Q2(), 2, H3())
  {
    hide PublishLoop;
    var q1 := P([2, 3], [2, 1, 0, 0], map[H2() := [0]], [Entry(H2(), 0)], 1);
    PublishUnit(M3().pool, [1, 1], [0, 1], 0, 2, H1());
    assert M3().pool.ref[0 := 2] == q1.ref && q1.ref[1 := 2] == Q2().ref;
    assert NoIndex()[H2() := [0]] == map[H2() := [0]] && [] + [Entry(H2(), 0)] == [Entry(H2(), 0)];
    PublishUnit(q1, [1, 1], [0, 1], 1, 2, H2());
    assert [Entry(H2(), 0)] + [Entry(H3(), 1)] == [Entry(H2(), 0), Entry(H3(), 1)];
    assert map[H2() := [0]][H3() := [1]] == map[H2() := [0], H3() := [1]];
    PublishNothing(Q2(), [1, 1], [0, 1], 2, 2, H3());
  }

  lemma PostSecond()
    ensures PostOne(OneAtATime(), M3().(mem := Mem2()), 0, Some(1)) == S4()
  {
    hide PublishLoop, DecrefAll;
    PublishSecond();
    ReleaseTwo(Q2(), 0, 1);
    assert [1, 1] + [1] == [1, 1, 1];
  }

  lemma AddSecond()
    ensures HostOp(S4(), Add([1], Ask(1))) == (S5(), Done)
  {
    assert S4().reqs + [S5().reqs[1]] == S5().reqs;
    assert [] + [1] == [1];
  }

  lemma AllocateThird()
    ensures var r := S5().reqs[1]; AllocateForTokens(S5().pool, r, 1) == Allocated(M5().pool, r.(table := [2], epoch := 1), [])
    ensures Readmit(S5().pool, S5().reqs[1]) == (S5().pool, S5().reqs[1]) && TokensToSchedule(S5().pool, S5().reqs[1], 8) == (S5().pool, 1)
  {
  }

  lemma StepThird(propose: Proposer)
    ensures PagedStep(Peek(), OneAtATime(), propose, S5()) == Stepped(S6(), [Emission(1, [1])])
    ensures RefStep(Peek(), OneAtATime(), propose, Host(S5())) == Stepped(Host(S6()), [Emission(1, [1])])
  {
    hide ScheduleLoop, AllocateForTokens, Readmit, TokensToSchedule, PostOne, RunOne, PagedToken, RefToken;
    var r := S5().reqs[1];
    AllocateThird();
    WaitingAlone(propose, S5(), 1, S5().pool, r, 1, M5().pool, r.(table := [2], epoch := 1));
    RanThird();
    PostThird();
    StepAlone(Peek(), propose, S5(), 1, M5(), Mem3(), Some(1), Some(1));
  }

  lemma RanThird()
    ensures RunOne(Peek(), M5(), 1) == M5().(mem := Mem3())
    ensures PagedToken(Peek(), M5().(mem := Mem3()), 1) == Some(1) && RefToken(Peek(), M5(), 1) == Some(1)
  {
    ForwardUnit(Peek(), Mem2(), [2], [1], 0);
    FlatUnits(Mem3(), [2]);
    assert Forward(Peek(), Mem3(), 1, [2], [1], 1, 1) == Mem3();
    assert Flat(Mem3(), [2])[..1] == [0];
  }

  lemma PublishThird()
    ensures PublishLoop(M5().pool, [1], [2], 0, 1, Root) == (Q3(), 1, H1())
  {
    hide PublishLoop;
    PublishUnit(M5().pool, [1], [2], 0, 1, Root);
    assert M5().pool.ref[2 := 2] == Q3().ref;
    assert map[H2() := [0], H3() := [1]][H1() := [2]] == Index();
    assert [Entry(H2(), 0), Entry(H3(), 1)] + [Entry(H1(), 2)] == [Entry(H2(), 0), Entry(H3(), 1), Entry(H1(), 2)];
    PublishNothing(Q3(), [1], [2], 1, 1, H1());
  }

  /** The third step between publishing its block and appending its token. */
  function N3(): Sys {
    M5().(mem := Mem3(), pool := Q3(), reqs := [A(), R([1], 1, 1, 0, [2], 0, 1, H1(), 1, 1, Running)])
  }

  lemma PublishedThird()
    ensures var s, r := M5().(mem := Mem3()), M5().reqs[1]; Publish(SetReq(s, 1, s.pool, r.(computed := r.computed + r.scheduled, scheduled := 0)), 1) == N3()
  {
    hide PublishLoop;
    PublishThird();
  }

  lemma CompletedThird()
    ensures CompleteIfDone(OneAtATime(), SetReq(N3(), 1, Q3(), Append(N3().reqs[1], [1])), 1) == S6()
  {
    hide DecrefAll;
    ReleaseOne(Q3(), 2);
    assert [1] + [1] == [1, 1];
  }

  lemma PostThird()
    ensures PostOne(OneAtATime(), M5().(mem := Mem3()), 1, Some(1)) == S6()
  {
    hide Publish, CompleteIfDone;
    PublishedThird();
    CompletedThird();
  }

  lemma TouchLast()
    ensures var lru := [Entry(H2(), 0), Entry(H3(), 1), Entry(H1(), 2)];
      Without(lru, Entry(H1(), 2)) + [Entry(H1(), 2)] == lru && Without(lru, Entry(H2(), 0)) + [Entry(H2(), 0)] == Lru7()
  {
    var lru := [Entry(H2(), 0), Entry(H3(), 1), Entry(H1(), 2)];
    assert lru[1..] == [Entry(H3(), 1), Entry(H1(), 2)] && lru[1..][1..] == [Entry(H1(), 2)] && lru[1..][1..][1..] == [];
    assert Without(lru[1..][1..], Entry(H1(), 2)) == [];
    assert Without(lru[1..], Entry(H1(), 2)) == [Entry(H3(), 1)];
    assert Without(lru, Entry(H1(), 2)) == [Entry(H2(), 0), Entry(H3(), 1)];
    assert Without(lru, Entry(H2(), 0)) == [Entry(H3(), 1), Entry(H1(), 2)];
  }

  lemma ShareTwice()
    ensures Share(S6().pool, Entry(H1(), 2)) == Q3() && Share(Q3(), Entry(H2(), 0)) == S7().pool
  {
    hide Without;
    TouchLast();
    assert S6().pool.ref[2 := 2] == Q3().ref && Q3().ref[0 := 2] == S7().pool.ref;
    assert Touch(S6().pool.cache, Entry(H1(), 2)) == Q3().cache;
    assert Touch(Q3().cache, Entry(H2(), 0)) == S7().pool.cache;
  }

  lemma AttachSharer()
    ensures AttachLoop(S6().pool, [1, 1, 5], 0, 2, [], Root) == (S7().pool, 2, [2, 0], H2())
  {
    hide Share;
    ShareTwice();
    assert BlockTokens([1, 1, 5], 1, 0) == [1] && BlockTokens([1, 1, 5], 1, 1) == [1];
    assert [] + [2] == [2] && [2] + [0] == [2, 0];
    assert AttachLoop(S6().pool, [1, 1, 5], 0, 2, [], Root) == AttachLoop(Q3(), [1, 1, 5], 1, 2, [2], H1());
    assert AttachLoop(Q3(), [1, 1, 5], 1, 2, [2], H1()) == AttachLoop(S7().pool, [1, 1, 5], 2, 2, [2, 0], H2()) == (S7().pool, 2, [2, 0], H2());
  }

  lemma AddSharer()
    ensures HostOp(S6(), Add([1, 1, 5], Ask(1))) == (S7(), Done)
  {
    hide AttachLoop;
    AttachSharer();
    assert S6().reqs + [S7().reqs[2]] == S7().reqs;
    assert [] + [2] == [2];
  }

  lemma AllocateLast()
    ensures var r := S7().reqs[2]; AllocateForTokens(S7().pool, r, 1) == Allocated(M7().pool, r.(table := [2, 0, 3], epoch := 1), [])
    ensures Readmit(S7().pool, S7().reqs[2]) == (S7().pool, S7().reqs[2]) && TokensToSchedule(S7().pool, S7().reqs[2], 8) == (S7().pool, 1)
  {
  }

  lemma StepLast(propose: Proposer)
    ensures PagedStep(Peek(), OneAtATime(), propose, S7()).Stepped? && PagedStep(Peek(), OneAtATime(), propose, S7()).emitted == [Emission(2, [0])]
    ensures RefStep(Peek(), OneAtATime(), propose, Host(S7())).Stepped? && RefStep(Peek(), OneAtATime(), propose, Host(S7())).emitted == [Emission(2, [1])]
  {
    hide ScheduleLoop, AllocateForTokens, Readmit, TokensToSchedule, PostOne, RunOne, PagedToken, RefToken;
    var r := S7().reqs[2];
    AllocateLast();
    WaitingAlone(propose, S7(), 2, S7().pool, r, 1, M7().pool, r.(table := [2, 0, 3], epoch := 1));
    RanLast();
    StepAlone(Peek(), propose, S7(), 2, M7(), Mem4(), Some(0), Some(1));
  }

  lemma {:induction false} CellsOf(tokens: seq<Token>)
    ensures forall i :: 0 <= i < |tokens| ==> RefCells(Peek(), tokens)[i] == i
  {
    if tokens != [] {
      CellsOf(tokens[..|tokens| - 1]);
    }
  }

  lemma RanLast()
    ensures RunOne(Peek(), M7(), 2) == M7().(mem := Mem4())
    ensures PagedToken(Peek(), M7().(mem := Mem4()), 2) == Some(0) && RefToken(Peek(), M7(), 2) == Some(1)
  {
    ForwardUnit(Peek(), Mem3(), [2, 0, 3], [1, 1, 5], 2);
    FlatUnits(Mem3(), [2, 0, 3]);
    FlatUnits(Mem4(), [2, 0, 3]);
    assert Forward(Peek(), Mem4(), 1, [2, 0, 3], [1, 1, 5], 3, 3) == Mem4();
    assert Flat(Mem4(), [2, 0, 3])[..3] == [0, 0, 2];
    CellsOf([1, 1, 5]);
  }

  // ----- the whole run -----

  function At(s: Sys): World {
    World(Peek(), s)
  }

  /** Both runners take the operation from one state to the other and report the same. */
  ghost predicate Together(op: Op, s: Sys, s': Sys, e: Event) {
    && PagedApply(OneAtATime(), At(s), op) == (At(s'), e)
    && RefApply(OneAtATime(), At(Host(s)), op) == (At(Host(s')), e)
  }

  lemma HostTogether(op: Op, s: Sys, s': Sys)
    requires (op.Add? || (op.Invalidate? && op.net == Peek())) && s.pool.bs == 1 && HostOp(s, op) == (s', Done)
    ensures Together(op, s, s', Done)
  {
    hide HostOp;
    HostOpMem(s, op, []);
  }

  lemma StepTogether(propose: Proposer, s: Sys, s': Sys, emitted: seq<Emission>)
    requires s.pool.bs == 1 && PagedStep(Peek(), OneAtATime(), propose, s) == Stepped(s', emitted)
    requires RefStep(Peek(), OneAtATime(), propose, Host(s)) == Stepped(Host(s'), emitted)
    ensures Together(Step(propose), s, s', Emitted(emitted))
  {
    hide PagedStep, RefStep;
  }

  lemma RunTogether(op: Op, s: Sys, s': Sys, e: Event, ops: seq<Op>)
    requires Together(op, s, s', e)
    ensures var (w, events) := PagedRun(OneAtATime(), At(s'), ops); PagedRun(OneAtATime(), At(s), [op] + ops) == (w, [e] + events)
    ensures var (w, events) := RefRun(OneAtATime(), At(Host(s')), ops); RefRun(OneAtATime(), At(Host(s)), [op] + ops) == (w, [e] + events)
  {
    hide PagedApply, RefApply;
    assert ([op] + ops)[1..] == ops;
  }

  /** Admit a request, run it, drop all KV under it, and run it again. */
  function Spoil(propose: Proposer, more: seq<Op>): seq<Op> {
    [Add([1], Ask(2))] + ([Step(propose)] + ([Invalidate(Peek())] + ([Step(propose)] + more)))
  }

  /** Then a request that republishes the first block, and one that shares both. */
  function ShareLater(propose: Proposer): seq<Op> {
    [Add([1], Ask(1))] + ([Step(propose)] + ([Add([1, 1, 5], Ask(1))] + ([Step(propose)] + [])))
  }

  function Start(): Sys {
    Boot(1, 4, true, Mem0())
  }

  lemma SpoilRuns(propose: Proposer, more: seq<Op>)
    ensures PagedRun(OneAtATime(), At(Start()), Spoil(propose, more)).0 == PagedRun(OneAtATime(), At(S4()), more).0
    ensures PagedRun(OneAtATime(), At(Start()), Spoil(propose, more)).1
         == [Done] + ([Emitted([Emission(0, [1])])] + ([Done] + ([Emitted([Emission(0, [1])])] + PagedRun(OneAtATime(), At(S4()), more).1)))
    ensures RefRun(OneAtATime(), At(Host(Start())), Spoil(propose, more)).1
         == [Done] + ([Emitted([Emission(0, [1])])] + ([Done] + ([Emitted([Emission(0, [1])])] + RefRun(OneAtATime(), At(Host(S4())), more).1)))
  {
    hide HostOp, PagedStep, RefStep, Together, PagedRun, RefRun, Boot;
    AddFirst();
    StepFirst(propose);
    DropAll();
    StepSecond(propose);
    StartSize();
    HostTogether(Add([1], Ask(2)), Start(), S1());
    StepTogether(propose, S1(), S2(), [Emission(0, [1])]);
    HostTogether(Invalidate(Peek()), S2(), S3());
    StepTogether(propose, S3(), S4(), [Emission(0, [1])]);
    var tail := [Step(propose)] + more;
    RunTogether(Step(propose), S3(), S4(), Emitted([Emission(0, [1])]), more);
    RunTogether(Invalidate(Peek()), S2(), S3(), Done, tail);
    RunTogether(Step(propose), S1(), S2(), Emitted([Emission(0, [1])]), [Invalidate(Peek())] + tail);
    RunTogether(Add([1], Ask(2)), Start(), S1(), Done, [Step(propose)] + ([Invalidate(Peek())] + tail));
  }

  lemma StartSize()
    ensures Start().pool.bs == 1
  {
  }

  /** Four operations into a run from a new engine the cache is wrong: the block of position 0 is
      on offer as the second block of a longer history. */
  lemma BareInvalidationSpoilsCache(propose: Proposer)
    ensures WorldInv(At(Start()))
    ensures var s := PagedRun(OneAtATime(), At(Start()), Spoil(propose, [])).0.s; !CacheHolds(Peek(), s.mem, s.pool.bs, s.pool.cache.lru)
  {
    hide PagedApply, SysInv, Spoil, CacheHolds, S4;
    BootInv(Peek(), 1, 4, true, Mem0());
    SpoilRuns(propose, []);
    SpoiledEntry();
  }

  lemma SpoiledEntry()
    ensures !CacheHolds(Peek(), S4().mem, S4().pool.bs, S4().pool.cache.lru)
  {
    CellsOf([1, 1]);
    var e := Entry(H2(), 0);
    assert HashTokens(H1()) == [1] && HashTokens(H2()) == [1, 1];
    assert RefCells(Peek(), [1, 1])[1..] == [1];
    assert e in S4().pool.cache.lru && !BlockHolds(Peek(), Mem2(), 1, e);
  }

  lemma ShareRuns(propose: Proposer)
    ensures PagedRun(OneAtATime(), At(S4()), ShareLater(propose)).1
         == [Done] + ([Emitted([Emission(1, [1])])] + ([Done] + ([Emitted([Emission(2, [0])])] + [])))
    ensures RefRun(OneAtATime(), At(Host(S4())), ShareLater(propose)).1
         == [Done] + ([Emitted([Emission(1, [1])])] + ([Done] + ([Emitted([Emission(2, [1])])] + [])))
  {
    hide HostOp, PagedStep, RefStep, Together, PagedRun, RefRun;
    AddSecond();
    StepThird(propose);
    AddSharer();
    HostTogether(Add([1], Ask(1)), S4(), S5());
    StepTogether(propose, S5(), S6(), [Emission(1, [1])]);
    HostTogether(Add([1, 1, 5], Ask(1)), S6(), S7());
    LastEvents(propose);
    var tail := [Step(propose)] + [];
    RunTogether(Add([1, 1, 5], Ask(1)), S6(), S7(), Done, tail);
    RunTogether(Step(propose), S5(), S6(), Emitted([Emission(1, [1])]), [Add([1, 1, 5], Ask(1))] + tail);
    RunTogether(Add([1], Ask(1)), S4(), S5(), Done, [Step(propose)] + ([Add([1, 1, 5], Ask(1))] + tail));
  }

  lemma LastEvents(propose: Proposer)
    ensures PagedRun(OneAtATime(), At(S7()), [Step(propose)] + []).1 == [Emitted([Emission(2, [0])])] + []
    ensures RefRun(OneAtATime(), At(Host(S7())), [Step(propose)] + []).1 == [Emitted([Emission(2, [1])])] + []
  {
    hide PagedStep, RefStep;
    StepLast(propose);
    assert ([Step(propose)] + [])[1..] == [];
  }

  /** And four operations later a user sees it: the engine reports 0 where recomputing the
      history from token 0 gives 1. */
  lemma BareInvalidationLies(propose: Proposer)
    ensures var ops := Spoil(propose, ShareLater(propose));
      var paged, reference := PagedRun(OneAtATime(), At(Start()), ops).1, RefRun(OneAtATime(), HostWorld(At(Start())), ops).1;
      |paged| == |reference| == 8 && paged[..7] == reference[..7]
      && paged[7] == Emitted([Emission(2, [0])]) && reference[7] == Emitted([Emission(2, [1])])
  {
    hide PagedRun, RefRun, Spoil, ShareLater, Boot;
    SpoilRuns(propose, ShareLater(propose));
    ShareRuns(propose);
  }
}

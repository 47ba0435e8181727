/** What the scheduler decides for one request, and why it is safe. */
module SchedulePlan {
  import opened Kv
  import opened BlockPool
  import opened Requests
  import opened Ownership
  import opened OwnershipSteps
  import opened System

  /** `r'` is `r` with a nonempty draft attached. */
  ghost predicate DraftOf(r: Req, r': Req) {
    && r.draft == 0 && 0 < r'.draft <= |r'.tokens|
    && Strip(r') == r
  }

  /** The outcome of planning `n` tokens for `r`: the pool still serves everyone, the tokens
      exist and fit, and drafts are kept only if the whole burst was granted.  Nothing is
      granted only when nothing fits. */
  ghost predicate PlanOk(net: Net, p: Pool, mem: Memory, rest: multiset<nat>, r: Req, budget: nat,
                         q: Pool, r': Req, n: nat) {
    && p.bs >= 1 && q.bs == p.bs
    && Local(net, q, mem, rest, r') && Frame(p, mem, q, mem, rest) && Available(q) == Available(p)
    && n <= budget
    && (n == 0 ==> r' == r)
    && (n > 0 ==> Fits(q, r', n) && r'.computed + n <= |r'.tokens|)
    && (r' == r || (DraftOf(r, r') && n == 1 + r'.draft && r'.computed + n == |r'.tokens| && r'.PrefillComplete()))
    && (n == 0 && budget > 0 && r.computed < |r.tokens| ==> !Fits(p, r, 1))
  }

  lemma FitsSame(p: Pool, r: Req, q: Pool, r': Req, n: nat)
    requires p.bs >= 1 && q.bs == p.bs && Available(q) == Available(p)
    requires r'.table == r.table && r'.computed == r.computed
    ensures Fits(q, r', n) == Fits(p, r, n)
  {
  }

  lemma TokensStep(net: Net, p: Pool, mem: Memory, rest: multiset<nat>, r: Req, budget: nat)
    requires Local(net, p, mem, rest, r) && p.bs >= 1
    ensures var (q, n) := TokensToSchedule(p, r, budget);
      PlanOk(net, p, mem, rest, r, budget, q, r, n) && n <= r.Uncomputed()
  {
    hide Local, Frame, MaxAllocatable, Fits, Available;
    FrameRefl(p, mem, rest);
    LocalShape(net, p, mem, rest, r);
    if r.Uncomputed() > 0 && budget > 0 {
      var limit := Min(r.Uncomputed(), budget);
      MaxAllocatableStep(net, p, mem, rest, r, limit);
    }
  }

  lemma StripDrafts(r: Req, drafts: seq<Token>)
    requires r.draft == 0
    ensures Strip(r.(tokens := r.tokens + drafts, draft := |drafts|)) == r
  {
    assert (r.tokens + drafts)[..|r.tokens|] == r.tokens;
  }

  /** Attaching drafts changes only the uncomputed tail of the history. */
  lemma AttachDraftsStep(net: Net, cfg: Config, propose: Proposer, p: Pool, mem: Memory, rest: multiset<nat>, r: Req, budget: nat)
    requires Local(net, p, mem, rest, r) && p.bs >= 1 && r.draft == 0
    ensures var (q, r') := MaybeAttachDrafts(cfg, propose, p, r, budget);
      && q.bs == p.bs
      && Local(net, q, mem, rest, r') && Frame(p, mem, q, mem, rest) && Available(q) == Available(p)
      && (r' == r || (DraftOf(r, r') && r'.computed + 1 + r'.draft == |r'.tokens| && r'.PrefillComplete()))
  {
    hide Local, Frame, MaxAllocatable, Fits, Available, Drafts;
    FrameRefl(p, mem, rest);
    LocalShape(net, p, mem, rest, r);
    var drafts := Drafts(cfg, propose, r);
    var need := 1 + |drafts|;
    MaxAllocatableStep(net, p, mem, rest, r, need);
    var (q, n) := MaxAllocatable(p, r, need);
    var r' := r.(tokens := r.tokens + drafts, draft := |drafts|);
    StripDrafts(r, drafts);
    assert r'.tokens[..r.computed] == r.tokens[..r.computed];
    HistoryStep(net, q, mem, rest, r, r');
  }

  lemma UnstripStep(net: Net, p: Pool, mem: Memory, rest: multiset<nat>, r: Req, r': Req)
    requires Local(net, p, mem, rest, r') && DraftOf(r, r') && r.computed <= |r.tokens|
    ensures Local(net, p, mem, rest, r)
  {
    hide Local;
    LocalShape(net, p, mem, rest, r');
    assert r == r'.(tokens := r'.tokens[..|r'.tokens| - r'.draft], draft := 0);
    assert r'.tokens[..r.computed] == r.tokens[..r.computed];
    HistoryStep(net, p, mem, rest, r', r);
  }

  /** `_consider_running` up to the allocation. */
  lemma PlanRunningStep(net: Net, cfg: Config, propose: Proposer, p: Pool, mem: Memory, rest: multiset<nat>, r: Req, budget: nat)
    requires Local(net, p, mem, rest, r) && p.bs >= 1 && r.draft == 0
    ensures var (q, r', n) := PlanRunning(cfg, propose, p, r, budget); PlanOk(net, p, mem, rest, r, budget, q, r', n)
  {
    hide Local, Frame, Fits, Available, MaybeAttachDrafts, TokensToSchedule;
    var (p1, r1) := MaybeAttachDrafts(cfg, propose, p, r, budget);
    AttachDraftsStep(net, cfg, propose, p, mem, rest, r, budget);
    TokensStep(net, p1, mem, rest, r1, budget);
    var (p2, n) := TokensToSchedule(p1, r1, budget);
    FrameTransitive(p, mem, p1, mem, p2, mem, rest);
    FitsSame(p, r, p1, r1, 1);
    FitsSame(p, r, p2, r, 1);
    StripNothing(r);
    LocalShape(net, p, mem, rest, r);
    if r1 != r {
      UnstripStep(net, p2, mem, rest, r, r1);
      if n != 0 && n != 1 + r1.draft {
        TokensStep(net, p2, mem, rest, r, budget);
        FrameTransitive(p, mem, p2, mem, TokensToSchedule(p2, r, budget).0, mem, rest);
      }
    }
  }

  lemma StripNothing(r: Req)
    requires r.draft == 0
    ensures Strip(r) == r
  {
  }

  // ----- reservation -----

  /** What a reservation establishes for the request it is made for. */
  ghost predicate Covered(bs: nat, r: Req) {
    r.scheduled >= 1 && r.computed + r.scheduled <= |r.tokens| && r.computed + r.scheduled <= |r.table| * bs
  }

  /** A planned reservation always succeeds, copies nothing, and covers the span. */
  lemma ReserveStep(net: Net, p: Pool, mem: Memory, rest: multiset<nat>, r: Req, n: nat)
    requires Local(net, p, mem, rest, r) && p.bs >= 1 && PublishReady(p, r) && n > 0 && Fits(p, r, n)
    requires r.computed + n <= |r.tokens|
    ensures AllocateForTokens(p, r, n).Allocated? && Grantable(p, r, n)
    ensures var Allocated(q, r', copies) := AllocateForTokens(p, r, n);
      && copies == [] && q.bs == p.bs
      && Local(net, q, mem, rest, r'.(scheduled := n)) && PublishReady(q, r'.(scheduled := n))
      && Frame(p, mem, q, mem, rest)
      && r' == r.(table := r'.table, epoch := p.epoch) && r'.table != []
      && Covered(p.bs, r'.(scheduled := n))
      && Available(q) == Available(p) - (|r'.table| - |r.table|) && |r'.table| >= |r.table|
  {
    hide Local, Frame, PublishReady, AllocateForTokens, Available, BlocksNeededFor, Grantable;
    AllocateStep(net, p, mem, rest, r, n);
    var Allocated(q, r', copies) := AllocateForTokens(p, r, n);
    FrameShape(p, mem, q, mem, rest);
    SameKvKeeps(net, q, mem, rest, r', r'.(scheduled := n));
    BlocksNeededForMeaning(r.computed + n, p.bs, |r'.table|);
    MulOrder(|r'.table|, 0, p.bs);
  }
}

/** No operation ever changes the pool's size, block size, caching switch or, short of a
    reset, its epoch. */
module Geometry {
  import opened Kv
  import opened BlockPool
  import opened Requests
  import opened Ownership
  import opened SpecDecode
  import opened System
  import opened Engine

  predicate SameFrame(p: Pool, q: Pool) {
    q.bs == p.bs && q.caching == p.caching && q.epoch == p.epoch && |q.ref| == |p.ref|
  }

  lemma {:induction false} DropEntriesFrame(p: Pool, victims: seq<Entry>)
    ensures SameFrame(p, DropEntries(p, victims))
    decreases |victims|
  {
    if victims != [] {
      DropEntriesFrame(Decref(p.(cache := Drop(p.cache, victims[0])), victims[0].block), victims[1..]);
    }
  }

  lemma EvictFrame(p: Pool, n: int)
    ensures SameFrame(p, EvictUnused(p, n))
  {
    hide DropEntries, Victims;
    DropEntriesFrame(p, Victims(p.cache.lru, p.ref, n));
  }

  lemma AllocFrame(p: Pool)
    ensures AllocBlock(p).Some? ==> SameFrame(p, AllocBlock(p).value.0)
  {
    hide EvictUnused;
    EvictFrame(p, 1);
  }

  lemma {:induction false} DecrefAllFrame(p: Pool, table: seq<nat>)
    ensures SameFrame(p, DecrefAll(p, table))
    decreases |table|
  {
    if table != [] {
      DecrefAllFrame(Decref(p, table[0]), table[1..]);
    }
  }

  lemma {:induction false} TruncateFrame(p: Pool, table: seq<nat>, needed: nat)
    ensures SameFrame(p, TruncateTable(p, table, needed).0)
    decreases |table|
  {
    if |table| > needed {
      TruncateFrame(Decref(p, table[|table| - 1]), table[..|table| - 1], needed);
    }
  }

  lemma {:induction false} GrowFrame(p: Pool, table: seq<nat>, needed: nat)
    ensures SameFrame(p, Grow(p, table, needed).0)
    decreases needed - |table|
  {
    hide AllocBlock;
    AllocFrame(p);
    if |table| < needed && AllocBlock(p).Some? {
      var (q, b) := AllocBlock(p).value;
      GrowFrame(q, table + [b], needed);
    }
  }

  lemma {:induction false} CowFrame(p: Pool, table: seq<nat>, i: nat, end: nat)
    ensures SameFrame(p, CowRange(p, table, i, end).0)
    decreases end - i
  {
    hide AllocBlock;
    if i < end && i < |table| {
      if table[i] >= |p.ref| || p.ref[table[i]] <= 1 {
        CowFrame(p, table, i + 1, end);
      } else {
        AllocFrame(p);
        if AllocBlock(p).Some? {
          var (q, b) := AllocBlock(p).value;
          CowFrame(Decref(q, table[i]), table[i := b], i + 1, end);
        }
      }
    }
  }

  lemma AllocateFrame(p: Pool, r: Req, n: nat)
    requires p.bs >= 1
    ensures SameFrame(p, AllocateForTokens(p, r, n).pool)
  {
    hide EvictUnused, Grow, CowRange, BlocksNeededFor;
    var end := r.computed + n;
    EvictFrame(p, BlocksNeededFor(end, p.bs) - |r.table| - |p.free|);
    var p1 := CanAllocate(p, r, n).0;
    GrowFrame(p1, r.table, BlocksNeededFor(end, p.bs));
    var (p2, table) := Grow(p1, r.table, BlocksNeededFor(end, p.bs));
    CowFrame(p2, table, r.computed / p.bs, BlocksNeededFor(end, p.bs));
  }

  lemma {:induction false} AttachFrame(p: Pool, tokens: seq<Token>, i: nat, full: nat, table: seq<nat>, parent: Hash)
    ensures SameFrame(p, AttachLoop(p, tokens, i, full, table, parent).0)
    decreases full - i
  {
    if i < full {
      var h := Link(parent, BlockTokens(tokens, p.bs, i));
      if Lookup(p.cache, h).Some? {
        var b := Lookup(p.cache, h).value;
        AttachFrame(Share(p, Entry(h, b)), tokens, i + 1, full, table + [b], h);
      }
    }
  }

  lemma {:induction false} PublishFrame(p: Pool, tokens: seq<Token>, table: seq<nat>, i: nat, full: nat, parent: Hash)
    requires full <= |table|
    ensures SameFrame(p, PublishLoop(p, tokens, table, i, full, parent).0)
    decreases full - i
  {
    if i < full && i * p.bs + p.bs <= |tokens| {
      var h := Link(parent, BlockTokens(tokens, p.bs, i));
      PublishFrame(PublishEntry(p, Entry(h, table[i])), tokens, table, i + 1, full, h);
    }
  }

  // ----- a scheduling pass -----

  lemma TokensFrame(p: Pool, r: Req, budget: nat)
    requires p.bs >= 1
    ensures SameFrame(p, TokensToSchedule(p, r, budget).0)
  {
    hide EvictUnused, BlocksNeededFor;
    EvictFrame(p, BlocksNeededFor(r.computed + Min(r.Uncomputed(), budget), p.bs) - |r.table| - |p.free|);
  }

  lemma DraftsFrame(cfg: Config, propose: Proposer, p: Pool, r: Req, budget: nat)
    requires p.bs >= 1
    ensures SameFrame(p, MaybeAttachDrafts(cfg, propose, p, r, budget).0)
  {
    hide EvictUnused, BlocksNeededFor, Drafts;
    EvictFrame(p, BlocksNeededFor(r.computed + 1 + |Drafts(cfg, propose, r)|, p.bs) - |r.table| - |p.free|);
  }

  lemma PlanFrame(cfg: Config, propose: Proposer, p: Pool, r: Req, budget: nat)
    requires p.bs >= 1
    ensures SameFrame(p, PlanRunning(cfg, propose, p, r, budget).0)
  {
    hide MaybeAttachDrafts, TokensToSchedule;
    DraftsFrame(cfg, propose, p, r, budget);
    var (p1, r1) := MaybeAttachDrafts(cfg, propose, p, r, budget);
    TokensFrame(p1, r1, budget);
    var (p2, n) := TokensToSchedule(p1, r1, budget);
    TokensFrame(p2, Strip(r1), budget);
  }

  predicate PassFrame(p: Pool, pass: Pass) {
    pass.Pass? ==> SameFrame(p, pass.s.pool)
  }

  lemma ReserveFrame(pass: Pass, k: nat, p: Pool, r: Req, n: nat)
    requires pass.Pass? && k < |pass.s.reqs| && p.bs >= 1
    ensures PassFrame(p, Reserve(pass, k, p, r, n))
  {
    hide AllocateForTokens, CopyBlocks;
    AllocateFrame(p, r, n);
  }

  lemma {:induction false} RunningFrame(cfg: Config, propose: Proposer, p: Pool, pass: Pass, ids: seq<nat>)
    requires PassFrame(p, pass)
    ensures PassFrame(p, ConsiderRunning(cfg, propose, pass, ids))
    decreases |ids|
  {
    hide PlanRunning, Reserve;
    if ids != [] {
      var k := ids[0];
      if pass.Pass? && k < |pass.s.reqs| && pass.s.pool.bs != 0 {
        PlanFrame(cfg, propose, pass.s.pool, pass.s.reqs[k], pass.budget);
        var (q, r, n) := PlanRunning(cfg, propose, pass.s.pool, pass.s.reqs[k], pass.budget);
        if q.bs != 0 {
          ReserveFrame(pass, k, q, r, n);
        }
      }
      RunningFrame(cfg, propose, p, ConsiderOne(cfg, propose, pass, k), ids[1..]);
    }
  }

  lemma ReadmitFrame(p: Pool, r: Req)
    requires p.bs >= 1
    ensures SameFrame(p, Readmit(p, r).0)
  {
    hide AttachLoop;
    AttachFrame(p, r.tokens, 0, if |r.tokens| == 0 then 0 else (|r.tokens| - 1) / p.bs, r.table, Root);
  }

  lemma ConsiderWaitingFrame(p: Pool, pass: Pass, k: nat)
    requires pass.Pass? && PassFrame(p, pass) && k < |pass.s.reqs|
    ensures PassFrame(p, ConsiderWaiting(pass, k).0)
  {
    hide Readmit, TokensToSchedule, Reserve, DecrefAll;
    var s := pass.s;
    if s.pool.bs != 0 {
      ReadmitFrame(s.pool, s.reqs[k]);
      var (q, r) := Readmit(s.pool, s.reqs[k]);
      TokensFrame(q, r, pass.budget);
      var (q', n) := TokensToSchedule(q, r, pass.budget);
      DecrefAllFrame(q', r.table);
      ReserveFrame(pass, k, q', r, n);
    }
  }

  lemma {:induction false} WaitingFrame(cfg: Config, p: Pool, pass: Pass, deferred: seq<nat>)
    requires PassFrame(p, pass)
    ensures PassFrame(p, ScheduleWaiting(cfg, pass, deferred))
    decreases if pass.Pass? then |pass.s.waiting| else 0
  {
    hide ConsiderWaiting, SameFrame;
    if pass.Pass? && pass.s.waiting != [] && !Full(cfg, pass) && pass.s.waiting[0] < |pass.s.reqs| {
      var k := pass.s.waiting[0];
      var popped := pass.(s := pass.s.(waiting := pass.s.waiting[1..]));
      ConsiderWaitingFrame(p, popped, k);
      var (pass', taken) := ConsiderWaiting(popped, k);
      if pass'.Pass? {
        WaitingShrinks(popped, k);
        WaitingFrame(cfg, p, pass', if taken then deferred else deferred + [k]);
      }
    }
  }

  lemma WaitingShrinks(pass: Pass, k: nat)
    requires pass.Pass? && k < |pass.s.reqs|
    ensures ConsiderWaiting(pass, k).0.Pass? ==> ConsiderWaiting(pass, k).0.s.waiting == pass.s.waiting
  {
    hide Readmit, TokensToSchedule, DecrefAll, AllocateForTokens;
  }

  predicate OutcomeFrame(p: Pool, outcome: Outcome) {
    outcome.Scheduled? || outcome.Idle? || outcome.TooLarge? ==> SameFrame(p, outcome.s.pool)
  }

  lemma {:induction false} ScheduleFrame(cfg: Config, propose: Proposer, s: Sys, bound: nat)
    ensures OutcomeFrame(s.pool, ScheduleLoop(cfg, propose, s, bound))
    decreases bound
  {
    hide ConsiderRunning, ScheduleWaiting, DecrefAll;
    if bound != 0 {
      RunningFrame(cfg, propose, s.pool, Pass(s, [], cfg.maxBatched), s.running);
      WaitingFrame(cfg, s.pool, ConsiderRunning(cfg, propose, Pass(s, [], cfg.maxBatched), s.running), []);
      var pass := SchedulePass(cfg, propose, s);
      if pass.Pass? && pass.scheduled == [] && pass.s.running != [] {
        var k := pass.s.running[|pass.s.running| - 1];
        if k < |pass.s.reqs| {
          DecrefAllFrame(pass.s.pool, Strip(pass.s.reqs[k]).table);
        }
        ScheduleFrame(cfg, propose, Preempt(pass.s), bound - 1);
      }
    }
  }

  // ----- the batch -----

  lemma CompleteFrame(cfg: Config, s: Sys, k: nat)
    requires k < |s.reqs|
    ensures SameFrame(s.pool, CompleteIfDone(cfg, s, k).pool) && |CompleteIfDone(cfg, s, k).reqs| == |s.reqs|
  {
    hide DecrefAll, Without, FinishReason;
    DecrefAllFrame(s.pool, s.reqs[k].table);
  }

  lemma PublishOneFrame(s: Sys, k: nat)
    requires k < |s.reqs| && s.pool.bs >= 1
    ensures SameFrame(s.pool, Publish(s, k).pool) && |Publish(s, k).reqs| == |s.reqs|
  {
    hide PublishLoop;
    var r := s.reqs[k];
    PublishFrame(s.pool, r.tokens, r.table, r.published, Min(|r.table|, r.computed / s.pool.bs), r.parent);
  }

  lemma PostFrame(cfg: Config, s: Sys, k: nat, token: Option<Token>)
    requires k < |s.reqs| && s.pool.bs >= 1
    ensures SameFrame(s.pool, PostOne(cfg, s, k, token).pool)
  {
    hide Publish, CompleteIfDone, Append;
    var r := s.reqs[k];
    var moved := SetReq(s, k, s.pool, r.(computed := r.computed + r.scheduled, scheduled := 0));
    PublishOneFrame(moved, k);
    var s1 := Publish(moved, k);
    if token.Some? {
      CompleteFrame(cfg, SetReq(s1, k, s1.pool, Append(s1.reqs[k], [token.value])), k);
    }
  }

  lemma CommitFrame(cfg: Config, s: Sys, k: nat, emitted: seq<Token>)
    requires k < |s.reqs| && s.pool.bs >= 1
    ensures SameFrame(s.pool, CommitOne(cfg, s, k, emitted).pool)
  {
    hide TruncateTable, Publish, CompleteIfDone, BlocksNeededFor;
    var base := Strip(s.reqs[k]);
    var tokens := base.tokens + emitted;
    var keep := if tokens == [] then 0 else |tokens| - 1;
    TruncateFrame(s.pool, base.table, BlocksNeededFor(keep, s.pool.bs));
    var (p, r) := TruncateKv(s.pool, base.(tokens := tokens, computed := keep, scheduled := 0), keep);
    if p.bs != 0 {
      PublishOneFrame(SetReq(s, k, p, r), k);
      CompleteFrame(cfg, Publish(SetReq(s, k, p, r), k), k);
    }
  }

  lemma {:induction false} CommitAllFrame(cfg: Config, s: Sys, ids: seq<nat>, choices: seq<seq<Token>>)
    ensures SameFrame(s.pool, CommitAll(cfg, s, ids, choices).0.pool)
    decreases |ids|
  {
    hide CommitOne, EmittedFor;
    if ids != [] && choices != [] && ids[0] < |s.reqs| && s.pool.bs != 0 {
      var emitted := EmittedFor(cfg, s.reqs[ids[0]], choices[0]);
      CommitFrame(cfg, s, ids[0], emitted);
      CommitAllFrame(cfg, CommitOne(cfg, s, ids[0], emitted), ids[1..], choices[1..]);
    }
  }

  lemma {:induction false} PostAllFrame(cfg: Config, s: Sys, ids: seq<nat>, tokens: seq<Option<Token>>)
    ensures SameFrame(s.pool, PostAll(cfg, s, ids, tokens).0.pool)
    decreases |ids|
  {
    hide PostOne;
    if ids != [] && tokens != [] && ids[0] < |s.reqs| && s.pool.bs != 0 {
      PostFrame(cfg, s, ids[0], tokens[0]);
      PostAllFrame(cfg, PostOne(cfg, s, ids[0], tokens[0]), ids[1..], tokens[1..]);
    }
  }

  lemma {:induction false} RunAllFrame(net: Net, s: Sys, ids: seq<nat>)
    ensures RunAll(net, s, ids).pool == s.pool
    decreases |ids|
  {
    hide Forward;
    if ids != [] {
      RunAllFrame(net, RunOne(net, s, ids[0]), ids[1..]);
    }
  }

  lemma BatchFrame(net: Net, cfg: Config, s: Sys, ids: seq<nat>)
    ensures SameFrame(s.pool, PagedBatch(net, cfg, s, ids).0.pool)
  {
    hide RunAll, CommitAll, PostAll, MapChoices, MapTokens, SpecIds, NormalIds;
    var specs, normal := SpecIds(s, ids), NormalIds(s, ids);
    RunAllFrame(net, s, specs);
    var s1 := RunAll(net, s, specs);
    CommitAllFrame(cfg, s1, specs, MapChoices(net, s1, specs));
    var s2 := CommitAll(cfg, s1, specs, MapChoices(net, s1, specs)).0;
    RunAllFrame(net, s2, normal);
    var s3 := RunAll(net, s2, normal);
    PostAllFrame(cfg, s3, normal, MapTokens(net, s3, normal));
  }

  /** One whole step. */
  lemma StepFrame(net: Net, cfg: Config, propose: Proposer, s: Sys)
    ensures var result := PagedStep(net, cfg, propose, s);
      result.Stepped? || result.Refused? ==> SameFrame(s.pool, result.s.pool)
  {
    hide ScheduleLoop, PagedBatch;
    ScheduleFrame(cfg, propose, s, cfg.maxSeqs + |s.running| + |s.waiting| + 1);
    var outcome := Schedule(cfg, propose, s);
    if outcome.Scheduled? {
      BatchFrame(net, cfg, outcome.s, outcome.ids);
    }
  }
}

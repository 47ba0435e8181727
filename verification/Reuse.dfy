/** Continuing a paused session instead of starting cold: when the answer is the same, exactly. */
module Reuse {
  import opened Kv
  import opened BlockPool
  import opened Requests
  import opened SpecDecode
  import opened System
  import opened ScheduleInv
  import opened Engine
  import opened Runs
  import opened Outcomes
  import opened Offload

  /** Everything that decides the answer except the minimum length, which a resume leaves as
      it was when the session was opened. */
  predicate SameButMinimum(r: Req, r': Req) {
    && r'.tokens == r.tokens && r'.prompt == r.prompt && r'.policy == r.policy && r'.maxTokens == r.maxTokens
    && r'.ignoreEos == r.ignoreEos && r'.stops == r.stops && r'.draft == r.draft
  }

  /** The minimum length as it can act: at least one token is always emitted, and never more
      than the maximum. */
  function Effective(minimum: int, maximum: nat): int {
    if minimum < 1 then 1 else if minimum > maximum then maximum else minimum
  }

  predicate CanStop(r: Req, eos: Option<Token>) {
    !r.ignoreEos && (r.stops != {} || eos.Some?)
  }

  /** The minimum length makes no difference. */
  predicate SameMinimum(r: Req, r': Req, eos: Option<Token>) {
    CanStop(r, eos) ==> Effective(r.minTokens, r.maxTokens) == Effective(r'.minTokens, r.maxTokens)
  }

  lemma {:induction false} SameRun(next: seq<Token> -> Token, r: Req, r': Req, eos: Option<Token>)
    requires Decoding(r) && SameButMinimum(r, r') && SameMinimum(r, r', eos)
    ensures PlainRun(next, r, eos).tokens == PlainRun(next, r', eos).tokens
    decreases r.maxTokens - (|r.tokens| - r.prompt)
  {
    var t := next(r.tokens);
    var r1, r1' := Append(r, [t]), Append(r', [t]);
    if FinishReason(r1, eos) == Unfinished {
      SameRun(next, r1, r1', eos);
    }
  }

  /** A network that always says the same stop token is cut exactly at the effective minimum. */
  lemma {:induction false} StubbornRun(next: seq<Token> -> Token, t: Token, r: Req, eos: Option<Token>)
    requires Decoding(r) && IsStop(r, eos, t) && forall tokens :: next(tokens) == t
    ensures var produced := |r.tokens| - r.prompt; var out := PlainRun(next, r, eos);
      |out.tokens| - r.prompt == if produced + 1 >= Effective(r.minTokens, r.maxTokens) then produced + 1 else Effective(r.minTokens, r.maxTokens)
    decreases r.maxTokens - (|r.tokens| - r.prompt)
  {
    var r1 := Append(r, [next(r.tokens)]);
    assert IsStop(r1, eos, t) && r1.tokens[|r1.tokens| - 1] == t;
    if FinishReason(r1, eos) == Unfinished {
      StubbornRun(next, t, r1, eos);
    }
  }

  function Stubborn(t: Token): Net {
    Net((cells: seq<Cell>, tok: Token) => 0, (cells: seq<Cell>, tokens: seq<Token>, policy: int) => t)
  }

  predicate Fresh(r: Req) {
    Live(r) && r.draft == 0 && r.prompt == |r.tokens| && r.maxTokens >= 1
  }

  lemma FreshFinal(net: Net, eos: Option<Token>, r: Req)
    requires Fresh(r)
    ensures Decoding(r) && FinalTokens(net, eos, r) == PlainRun(Target(net, r.policy), r, eos).tokens
  {
    hide PlainRun;
  }

  lemma SameAnswer(net: Net, eos: Option<Token>, r: Req, r': Req)
    requires Fresh(r) && Fresh(r') && SameButMinimum(r, r') && SameMinimum(r, r', eos)
    ensures FinalTokens(net, eos, r) == FinalTokens(net, eos, r')
  {
    FreshFinal(net, eos, r);
    FreshFinal(net, eos, r');
    SameRun(Target(net, r.policy), r, r', eos);
  }

  lemma NonemptyStops(tokens: set<Token>)
    ensures tokens == {} || exists x :: x in tokens
  {
    if forall x: Token :: x !in tokens {
      assert tokens == {};
    }
  }

  lemma OtherAnswer(eos: Option<Token>, r: Req, r': Req) returns (net: Net)
    requires Fresh(r) && Fresh(r') && SameButMinimum(r, r') && !SameMinimum(r, r', eos)
    ensures FinalTokens(net, eos, r) != FinalTokens(net, eos, r')
  {
    assert CanStop(r, eos);
    var t: Token;
    if eos.Some? {
      t := eos.value;
    } else {
      NonemptyStops(r.stops);
      t :| t in r.stops;
    }
    net := Stubborn(t);
    FreshFinal(net, eos, r);
    FreshFinal(net, eos, r');
    assert forall tokens :: Target(net, r.policy)(tokens) == t;
    StubbornRun(Target(net, r.policy), t, r, eos);
    StubbornRun(Target(net, r.policy), t, r', eos);
  }

  lemma ResumedShape(net: Net, s: Sys, k: nat, suffix: seq<Token>, q: Params)
    requires SysInv(net, s) && s.pool.bs >= 1 && k < |s.reqs|
    ensures var resumed := Resume(s, k, suffix, q.maxTokens, q.hold, q.policy, q.stops, q.ignoreEos);
      resumed.Some? ==>
        && k < |resumed.value.reqs| && var r := resumed.value.reqs[k];
        && Fresh(r) && r.tokens == s.reqs[k].tokens + suffix && r.minTokens == s.reqs[k].minTokens
        && SameButMinimum(r, NewRequest(s.reqs[k].tokens + suffix, q)) && Fresh(NewRequest(s.reqs[k].tokens + suffix, q))
  {
    hide BlocksNeededFor;
    OwnerScheduled(net, s, k);
  }

  /** A continued session gives, for every network, the answer of a cold start on the whole
      conversation exactly when the session's own minimum length acts as the new one would. */
  lemma ReuseIsExact(net: Net, s: Sys, k: nat, suffix: seq<Token>, q: Params, eos: Option<Token>)
    requires SysInv(net, s) && s.pool.bs >= 1 && k < |s.reqs|
    ensures var resumed := Resume(s, k, suffix, q.maxTokens, q.hold, q.policy, q.stops, q.ignoreEos);
      resumed.Some? ==>
        k < |resumed.value.reqs| && var cold := NewRequest(s.reqs[k].tokens + suffix, q);
        SameMinimum(cold, s.reqs[k], eos) <==> forall n: Net :: FinalTokens(n, eos, resumed.value.reqs[k]) == FinalTokens(n, eos, cold)
  {
    hide Resume, SysInv, FinalTokens, Fresh, SameButMinimum;
    ResumedShape(net, s, k, suffix, q);
    var resumed := Resume(s, k, suffix, q.maxTokens, q.hold, q.policy, q.stops, q.ignoreEos);
    if resumed.Some? {
      var r, cold := resumed.value.reqs[k], NewRequest(s.reqs[k].tokens + suffix, q);
      MinimumOf(r, s.reqs[k], cold, eos);
      if SameMinimum(cold, s.reqs[k], eos) {
        forall n: Net
          ensures FinalTokens(n, eos, r) == FinalTokens(n, eos, cold)
        {
          SameAnswer(n, eos, r, cold);
        }
      } else {
        var n := OtherAnswer(eos, r, cold);
      }
    }
  }

  lemma MinimumOf(r: Req, r0: Req, cold: Req, eos: Option<Token>)
    requires SameButMinimum(r, cold) && r.minTokens == r0.minTokens
    ensures SameMinimum(r, cold, eos) <==> SameMinimum(cold, r0, eos)
  {
  }
}

/** Sampled speculative verification with a point-mass draft, over exact probabilities: the
    burst has the target's own distribution, and so does any number of bursts in a row.

    A target row is a finite distribution over token ids.  The uniform draw that decides
    acceptance succeeds with probability `q`, and a draw from a row or from a normalised
    residual follows that row. */
module SampledVerify {
  type Token = nat
  type Dist = seq<real>

  // ----- finite distributions -----

  function Sum(d: Dist): real {
    if d == [] then 0.0 else Sum(d[..|d| - 1]) + d[|d| - 1]
  }

  ghost predicate IsDist(d: Dist) {
    (forall x :: 0 <= x < |d| ==> d[x] >= 0.0) && Sum(d) == 1.0
  }

  function Prob(d: Dist, x: Token): real {
    if x < |d| then d[x] else 0.0
  }

  /** The row with the rejected draft's weight removed. */
  function Residual(row: Dist, draft: Token): Dist {
    if draft < |row| then row[draft := 0.0] else row
  }

  lemma {:induction false} ResidualSum(row: Dist, draft: Token)
    ensures Sum(Residual(row, draft)) == Sum(row) - Prob(row, draft)
  {
    if row != [] {
      var init := row[..|row| - 1];
      ResidualSum(init, draft);
      if draft < |init| {
        assert Residual(row, draft)[..|row| - 1] == Residual(init, draft);
      } else if draft == |init| {
        assert Residual(row, draft)[..|row| - 1] == init;
      }
    }
  }

  lemma {:induction false} SumNonneg(d: Dist)
    requires forall x :: 0 <= x < |d| ==> d[x] >= 0.0
    ensures Sum(d) >= 0.0
    ensures forall x :: 0 <= x < |d| ==> d[x] <= Sum(d)
  {
    if d != [] {
      var init := d[..|d| - 1];
      assert forall x :: 0 <= x < |init| ==> init[x] == d[x];
      SumNonneg(init);
    }
  }

  /** A residual weighs exactly the probability of rejection. */
  lemma ResidualMass(row: Dist, draft: Token)
    requires IsDist(row)
    ensures Sum(Residual(row, draft)) == 1.0 - Prob(row, draft)
    ensures 0.0 <= Prob(row, draft) <= 1.0
  {
    ResidualSum(row, draft);
    SumNonneg(row);
  }

  function ArgMax(row: Dist): Token
    requires row != []
  {
    if |row| == 1 then 0
    else
      var m := ArgMax(row[..|row| - 1]);
      if m < |row| && row[|row| - 1] > row[m] then |row| - 1 else m
  }

  // ----- one rejected position -----

  /** The probability that the replacement for a rejected draft is `x`.  A residual without
      weight falls back on the row's best token. */
  function Recovered(row: Dist, draft: Token, x: Token): real
    requires row != []
  {
    var residual := Residual(row, draft);
    if Sum(residual) <= 0.0 then (if x == ArgMax(row) then 1.0 else 0.0)
    else Prob(residual, x) / Sum(residual)
  }

  /** Accepting the draft with its own probability and otherwise drawing from the residual
      draws from the row.  The fallback branch never carries weight. */
  lemma MarginalIsExact(row: Dist, draft: Token, x: Token)
    requires row != [] && IsDist(row)
    ensures Prob(row, draft) * (if x == draft then 1.0 else 0.0)
          + (1.0 - Prob(row, draft)) * Recovered(row, draft, x) == Prob(row, x)
    ensures x == draft ==> (1.0 - Prob(row, draft)) * Recovered(row, draft, x) == 0.0
  {
    hide Sum, ArgMax;
    ResidualMass(row, draft);
    var q := Prob(row, draft);
    var residual := Residual(row, draft);
    if Sum(residual) <= 0.0 {
      SupportIsDraft(row, draft, x);
    } else {
      var p := Prob(residual, x);
      assert (1.0 - q) * (p / (1.0 - q)) == p;
    }
  }

  /** A certain draft leaves nothing for any other token. */
  lemma SupportIsDraft(row: Dist, draft: Token, x: Token)
    requires IsDist(row) && Sum(Residual(row, draft)) <= 0.0
    ensures Prob(row, draft) == 1.0 && (x != draft ==> Prob(row, x) == 0.0)
  {
    ResidualMass(row, draft);
    SumNonneg(Residual(row, draft));
    SumNonneg(row);
    if x != draft && x < |row| {
      assert Residual(row, draft)[x] == row[x];
    }
  }

  // ----- one burst -----

  /** The rows of a burst: one per draft, and one for the bonus token. */
  ghost predicate Rows(rows: seq<Dist>, drafts: seq<Token>) {
    && |rows| == |drafts| + 1
    && forall i :: 0 <= i < |rows| ==> rows[i] != [] && IsDist(rows[i])
  }

  lemma RowsTail(rows: seq<Dist>, drafts: seq<Token>)
    requires Rows(rows, drafts) && drafts != []
    ensures Rows(rows[1..], drafts[1..])
  {
  }

  /** The probability that verification emits exactly `s`, following the accept and reject
      branches. */
  ghost function BurstProb(rows: seq<Dist>, drafts: seq<Token>, s: seq<Token>): real
    requires Rows(rows, drafts)
  {
    if s == [] then 0.0
    else if drafts == [] then (if |s| == 1 then Prob(rows[0], s[0]) else 0.0)
    else
      RowsTail(rows, drafts);
      var q := Prob(rows[0], drafts[0]);
      (if s[0] == drafts[0] then q * BurstProb(rows[1..], drafts[1..], s[1..]) else 0.0)
      + (if |s| == 1 then (1.0 - q) * Recovered(rows[0], drafts[0], s[0]) else 0.0)
  }

  /** Accepted drafts followed by one token that is not the next draft. */
  predicate Emittable(drafts: seq<Token>, s: seq<Token>) {
    if s == [] then false
    else if drafts == [] then |s| == 1
    else if s[0] == drafts[0] then Emittable(drafts[1..], s[1..])
    else |s| == 1
  }

  function Product(rows: seq<Dist>, s: seq<Token>): real
    requires |s| <= |rows|
  {
    if s == [] then 1.0 else Prob(rows[0], s[0]) * Product(rows[1..], s[1..])
  }

  lemma {:induction false} EmittableMeaning(drafts: seq<Token>, s: seq<Token>)
    ensures Emittable(drafts, s) <==>
      && 1 <= |s| <= |drafts| + 1 && s[..|s| - 1] == drafts[..|s| - 1]
      && (|s| <= |drafts| ==> s[|s| - 1] != drafts[|s| - 1])
  {
    if s != [] && drafts != [] {
      EmittableMeaning(drafts[1..], s[1..]);
      if |s| >= 2 && |s| <= |drafts| + 1 {
        assert s[..|s| - 1] == [s[0]] + s[1..][..|s| - 2];
        assert drafts[..|s| - 1] == [drafts[0]] + drafts[1..][..|s| - 2];
      }
    }
  }

  /** A burst emits exactly `s` with the product of the target's probabilities along it, and
      nothing that is not accepted drafts plus one. */
  lemma {:induction false} BurstIsTarget(rows: seq<Dist>, drafts: seq<Token>, s: seq<Token>)
    requires Rows(rows, drafts)
    ensures Emittable(drafts, s) ==> |s| <= |rows| && BurstProb(rows, drafts, s) == Product(rows, s)
    ensures !Emittable(drafts, s) ==> BurstProb(rows, drafts, s) == 0.0
    decreases |s|
  {
    hide Recovered, IsDist;
    if s != [] && drafts != [] {
      RowsTail(rows, drafts);
      BurstIsTarget(rows[1..], drafts[1..], s[1..]);
      MarginalIsExact(rows[0], drafts[0], s[0]);
      assert s[0] == drafts[0] && |s| == 1 ==> s[1..] == [];
      if s[0] != drafts[0] && |s| == 1 {
        assert Product(rows, s) == Prob(rows[0], s[0]) * 1.0;
      }
    } else if drafts == [] && |s| == 1 {
      assert Product(rows, s) == Prob(rows[0], s[0]) * 1.0;
    }
  }

  // ----- the emittable bursts carry all the mass -----

  /** The tokens below `n`, except one. */
  function Singles(n: nat, except: Token): seq<seq<Token>> {
    if n == 0 then []
    else Singles(n - 1, except) + (if n - 1 == except then [] else [[n - 1]])
  }

  function Behind(d: Token, tails: seq<seq<Token>>): seq<seq<Token>> {
    if tails == [] then [] else [[d] + tails[0]] + Behind(d, tails[1..])
  }

  /** Every burst that can be emitted, over the tokens each row knows. */
  function Bursts(sizes: seq<nat>, drafts: seq<Token>): seq<seq<Token>>
    requires |sizes| == |drafts| + 1
  {
    if drafts == [] then Singles(sizes[0], sizes[0])
    else Singles(sizes[0], drafts[0]) + Behind(drafts[0], Bursts(sizes[1..], drafts[1..]))
  }

  function Sizes(rows: seq<Dist>): (sizes: seq<nat>)
    ensures |sizes| == |rows|
  {
    seq(|rows|, i requires 0 <= i < |rows| => |rows[i]|)
  }

  ghost function TotalProb(rows: seq<Dist>, drafts: seq<Token>, bursts: seq<seq<Token>>): real
    requires Rows(rows, drafts)
  {
    if bursts == [] then 0.0 else BurstProb(rows, drafts, bursts[0]) + TotalProb(rows, drafts, bursts[1..])
  }

  lemma {:induction false} TotalConcat(rows: seq<Dist>, drafts: seq<Token>, a: seq<seq<Token>>, b: seq<seq<Token>>)
    requires Rows(rows, drafts)
    ensures TotalProb(rows, drafts, a + b) == TotalProb(rows, drafts, a) + TotalProb(rows, drafts, b)
    decreases |a|
  {
    hide BurstProb;
    if a == [] {
      assert a + b == b;
    } else {
      assert (a + b)[1..] == a[1..] + b;
      TotalConcat(rows, drafts, a[1..], b);
    }
  }

  lemma {:induction false} SinglesMembers(n: nat, except: Token, s: seq<Token>)
    ensures s in Singles(n, except) <==> |s| == 1 && s[0] < n && s[0] != except
  {
    if n > 0 {
      SinglesMembers(n - 1, except, s);
      assert s in Singles(n, except) <==> s in Singles(n - 1, except) || (n - 1 != except && s == [n - 1]);
    }
  }

  lemma {:induction false} BehindMembers(d: Token, tails: seq<seq<Token>>, s: seq<Token>)
    ensures s in Behind(d, tails) <==> s != [] && s[0] == d && s[1..] in tails
    decreases |tails|
  {
    if tails != [] {
      BehindMembers(d, tails[1..], s);
      assert s == [d] + tails[0] <==> s != [] && s[0] == d && s[1..] == tails[0] by {
        if s != [] && s[0] == d && s[1..] == tails[0] {
          assert s == [s[0]] + s[1..];
        }
      }
    }
  }

  /** The list is complete: it holds the emittable bursts over known tokens. */
  lemma {:induction false} BurstsComplete(sizes: seq<nat>, drafts: seq<Token>, s: seq<Token>)
    requires |sizes| == |drafts| + 1
    ensures s in Bursts(sizes, drafts) <==> Emittable(drafts, s) && |s| <= |sizes| && s[|s| - 1] < sizes[|s| - 1]
    decreases |drafts|
  {
    hide Singles, Behind;
    if drafts == [] {
      SinglesMembers(sizes[0], sizes[0], s);
    } else {
      SinglesMembers(sizes[0], drafts[0], s);
      var tails := Bursts(sizes[1..], drafts[1..]);
      BehindMembers(drafts[0], tails, s);
      assert s in Bursts(sizes, drafts) <==> s in Singles(sizes[0], drafts[0]) || s in Behind(drafts[0], tails);
      if s != [] {
        BurstsComplete(sizes[1..], drafts[1..], s[1..]);
      }
    }
  }

  lemma {:induction false} SinglesTotal(rows: seq<Dist>, drafts: seq<Token>, n: nat)
    requires Rows(rows, drafts) && n <= |rows[0]|
    ensures drafts == [] ==> TotalProb(rows, drafts, Singles(n, |rows[0]|)) == Sum(rows[0][..n])
    ensures drafts != [] ==> TotalProb(rows, drafts, Singles(n, drafts[0])) == Sum(Residual(rows[0], drafts[0])[..n])
  {
    hide BurstProb, IsDist, Emittable, Recovered;
    var except := if drafts == [] then |rows[0]| else drafts[0];
    var row := if drafts == [] then rows[0] else Residual(rows[0], drafts[0]);
    if n > 0 {
      SinglesTotal(rows, drafts, n - 1);
      assert row[..n][..n - 1] == row[..n - 1];
      var last := if n - 1 == except then [] else [[n - 1]];
      TotalConcat(rows, drafts, Singles(n - 1, except), last);
      if n - 1 != except {
        SingleProb(rows, drafts, n - 1);
        assert last[1..] == [];
        assert row[n - 1] == rows[0][n - 1];
      }
    }
  }

  lemma SingleProb(rows: seq<Dist>, drafts: seq<Token>, x: Token)
    requires Rows(rows, drafts) && (drafts != [] ==> x != drafts[0])
    ensures BurstProb(rows, drafts, [x]) == Prob(rows[0], x)
  {
    hide BurstProb, IsDist;
    BurstIsTarget(rows, drafts, [x]);
    assert Emittable(drafts, [x]);
    assert Product(rows, [x]) == Prob(rows[0], x) * 1.0;
  }

  lemma AcceptedProb(rows: seq<Dist>, drafts: seq<Token>, tail: seq<Token>)
    requires Rows(rows, drafts) && drafts != [] && Rows(rows[1..], drafts[1..]) && tail != []
    ensures BurstProb(rows, drafts, [drafts[0]] + tail) == Prob(rows[0], drafts[0]) * BurstProb(rows[1..], drafts[1..], tail)
  {
    hide IsDist, Recovered;
    var s := [drafts[0]] + tail;
    assert s[1..] == tail && |s| > 1;
  }

  lemma Factor(q: real, a: real, b: real)
    ensures q * a + q * b == q * (a + b)
  {
  }

  lemma {:induction false} BehindTotal(rows: seq<Dist>, drafts: seq<Token>, tails: seq<seq<Token>>)
    requires Rows(rows, drafts) && drafts != [] && Rows(rows[1..], drafts[1..])
    requires forall t :: t in tails ==> t != []
    ensures TotalProb(rows, drafts, Behind(drafts[0], tails)) == Prob(rows[0], drafts[0]) * TotalProb(rows[1..], drafts[1..], tails)
    decreases |tails|
  {
    hide IsDist, BurstProb, Prob;
    if tails != [] {
      assert tails[0] in tails && forall t :: t in tails[1..] ==> t in tails;
      BehindTotal(rows, drafts, tails[1..]);
      assert Behind(drafts[0], tails)[1..] == Behind(drafts[0], tails[1..]);
      AcceptedProb(rows, drafts, tails[0]);
      Factor(Prob(rows[0], drafts[0]), BurstProb(rows[1..], drafts[1..], tails[0]), TotalProb(rows[1..], drafts[1..], tails[1..]));
    }
  }

  /** The emittable bursts carry total probability one. */
  lemma {:induction false} BurstsTotal(rows: seq<Dist>, drafts: seq<Token>)
    requires Rows(rows, drafts)
    ensures TotalProb(rows, drafts, Bursts(Sizes(rows), drafts)) == 1.0
    decreases |drafts|
  {
    hide TotalProb, Singles, Behind, Sum, Residual;
    SinglesTotal(rows, drafts, |rows[0]|);
    if drafts == [] {
      assert rows[0][..|rows[0]|] == rows[0];
    } else {
      RowsTail(rows, drafts);
      assert Sizes(rows)[1..] == Sizes(rows[1..]);
      var tails := Bursts(Sizes(rows[1..]), drafts[1..]);
      forall t | t in tails
        ensures t != []
      {
        BurstsComplete(Sizes(rows[1..]), drafts[1..], t);
      }
      BurstsTotal(rows[1..], drafts[1..]);
      BehindTotal(rows, drafts, tails);
      TotalConcat(rows, drafts, Singles(|rows[0]|, drafts[0]), Behind(drafts[0], tails));
      WholeResidual(rows[0], drafts[0]);
    }
  }

  lemma WholeResidual(row: Dist, draft: Token)
    requires IsDist(row)
    ensures |Residual(row, draft)| == |row| && Residual(row, draft)[..|row|] == Residual(row, draft)
    ensures Sum(Residual(row, draft)) == 1.0 - Prob(row, draft)
  {
    ResidualMass(row, draft);
  }

  // ----- burst after burst -----

  /** The target: a row for every history. */
  type Target = seq<Token> -> Dist

  ghost predicate IsTarget(target: Target) {
    forall h :: target(h) != [] && IsDist(target(h))
  }

  /** The probability that decoding one token at a time from `h` continues with `t`. */
  function Autoregressive(target: Target, h: seq<Token>, t: seq<Token>): real
    decreases |t|
  {
    if t == [] then 1.0 else Prob(target(h), t[0]) * Autoregressive(target, h + [t[0]], t[1..])
  }

  /** The probability that speculative decoding continues with `t`, with `drafts` still to be
      verified in the current burst and `propose` supplying those of every later one. */
  ghost function Speculative(target: Target, propose: seq<Token> -> seq<Token>, h: seq<Token>, drafts: seq<Token>, t: seq<Token>): real
    requires IsTarget(target)
    decreases |t|
  {
    if t == [] then 1.0
    else
      var h' := h + [t[0]];
      if drafts == [] then Prob(target(h), t[0]) * Speculative(target, propose, h', propose(h'), t[1..])
      else
        var q := Prob(target(h), drafts[0]);
        (if t[0] == drafts[0] then q * Speculative(target, propose, h', drafts[1..], t[1..]) else 0.0)
        + (1.0 - q) * Recovered(target(h), drafts[0], t[0]) * Speculative(target, propose, h', propose(h'), t[1..])
  }

  lemma TargetRow(target: Target, h: seq<Token>)
    requires IsTarget(target)
    ensures target(h) != [] && IsDist(target(h))
  {
  }

  lemma SplitByAcceptance(q: real, hit: bool, r: real, p: real, rest: real)
    requires q * (if hit then 1.0 else 0.0) + r == p
    ensures (if hit then q * rest else 0.0) + r * rest == p * rest
  {
  }

  /** Speculative sampling preserves the distribution: whatever is drafted, and however bursts
      fall, any continuation has exactly its autoregressive probability. */
  lemma {:induction false} SpeculationKeepsDistribution(target: Target, propose: seq<Token> -> seq<Token>, h: seq<Token>, drafts: seq<Token>, t: seq<Token>)
    requires IsTarget(target)
    ensures Speculative(target, propose, h, drafts, t) == Autoregressive(target, h, t)
    decreases |t|
  {
    hide Recovered, IsDist, IsTarget, Prob;
    if t != [] {
      var h' := h + [t[0]];
      TargetRow(target, h);
      SpeculationKeepsDistribution(target, propose, h', propose(h'), t[1..]);
      if drafts != [] {
        SpeculationKeepsDistribution(target, propose, h', drafts[1..], t[1..]);
        MarginalIsExact(target(h), drafts[0], t[0]);
        SplitByAcceptance(Prob(target(h), drafts[0]), t[0] == drafts[0],
                          (1.0 - Prob(target(h), drafts[0])) * Recovered(target(h), drafts[0], t[0]),
                          Prob(target(h), t[0]), Autoregressive(target, h', t[1..]));
      }
    }
  }

  // ----- the verifier -----

  /** What one run of the verifier decides, given the uniform draws and the sampler. */
  function Verdict(rows: seq<Dist>, drafts: seq<Token>, uniforms: seq<real>, pick: Dist -> Token): seq<Token>
    requires |rows| == |drafts| + 1 && |uniforms| == |drafts| && forall i :: 0 <= i < |rows| ==> rows[i] != []
  {
    if drafts == [] then [pick(rows[0])]
    else if Prob(rows[0], drafts[0]) >= uniforms[0] then
      [drafts[0]] + Verdict(rows[1..], drafts[1..], uniforms[1..], pick)
    else [Replacement(rows[0], drafts[0], pick)]
  }

  function Replacement(row: Dist, draft: Token, pick: Dist -> Token): Token
    requires row != []
  {
    var residual := Residual(row, draft);
    if Sum(residual) <= 0.0 then ArgMax(row)
    else pick(seq(|residual|, x requires 0 <= x < |residual| => residual[x] / Sum(residual)))
  }

  /** A sampler only returns tokens its row gives weight. */
  ghost predicate Sampler(pick: Dist -> Token) {
    forall d: Dist :: d != [] && IsDist(d) ==> Prob(d, pick(d)) > 0.0
  }

  lemma {:induction false} ScaledSum(d: Dist, scaled: Dist, total: real)
    requires total != 0.0 && |scaled| == |d| && forall x :: 0 <= x < |d| ==> scaled[x] == d[x] / total
    ensures Sum(scaled) == Sum(d) / total
  {
    if d != [] {
      ScaledSum(d[..|d| - 1], scaled[..|d| - 1], total);
    }
  }

  lemma NonnegQuotient(a: real, b: real)
    requires a >= 0.0 && b > 0.0
    ensures a / b >= 0.0 && b / b == 1.0
  {
  }

  /** A rejected draft is never its own replacement, unless rejecting it was impossible. */
  lemma ReplacementDiffers(row: Dist, draft: Token, pick: Dist -> Token, uniform: real)
    requires row != [] && IsDist(row) && Sampler(pick) && 0.0 <= uniform < 1.0 && Prob(row, draft) < uniform
    ensures Replacement(row, draft, pick) != draft
  {
    hide Sum;
    var residual := Residual(row, draft);
    ResidualMass(row, draft);
    var scaled := seq(|residual|, x requires 0 <= x < |residual| => residual[x] / Sum(residual));
    ScaledSum(residual, scaled, Sum(residual));
    forall x | 0 <= x < |scaled|
      ensures scaled[x] >= 0.0
    {
      NonnegQuotient(residual[x], Sum(residual));
    }
    NonnegQuotient(0.0, Sum(residual));
    assert Sum(scaled) == 1.0;
    assert IsDist(scaled);
    assert Prob(scaled, pick(scaled)) > 0.0;
  }

  lemma VerdictStep(rows: seq<Dist>, drafts: seq<Token>, uniforms: seq<real>, pick: Dist -> Token, i: nat)
    requires |rows| == |drafts| + 1 && |uniforms| == |drafts| && (forall j :: 0 <= j < |rows| ==> rows[j] != []) && i <= |drafts|
    ensures var rest := Verdict(rows[i..], drafts[i..], uniforms[i..], pick);
      if i == |drafts| then rest == [pick(rows[i])]
      else if Prob(rows[i], drafts[i]) >= uniforms[i] then
        rest == [drafts[i]] + Verdict(rows[i + 1..], drafts[i + 1..], uniforms[i + 1..], pick)
      else rest == [Replacement(rows[i], drafts[i], pick)]
  {
    if i < |drafts| {
      assert rows[i..][1..] == rows[i + 1..] && drafts[i..][1..] == drafts[i + 1..] && uniforms[i..][1..] == uniforms[i + 1..];
    }
  }

  /** `verify_sampled`; the reported probability of each token is the target's own. */
  method VerifySampled(rows: seq<Dist>, drafts: seq<Token>, uniforms: seq<real>, pick: Dist -> Token)
    returns (out: seq<Token>, probs: seq<real>)
    requires |rows| == |drafts| + 1 && |uniforms| == |drafts| && forall i :: 0 <= i < |rows| ==> rows[i] != []
    ensures out == Verdict(rows, drafts, uniforms, pick)
    ensures |probs| == |out| <= |rows| && forall i :: 0 <= i < |out| ==> probs[i] == Prob(rows[i], out[i])
  {
    hide Verdict, Replacement, Prob;
    out, probs := [], [];
    assert rows[0..] == rows && drafts[0..] == drafts && uniforms[0..] == uniforms;
    for i := 0 to |drafts|
      invariant |out| == |probs| == i
      invariant forall j :: 0 <= j < i ==> probs[j] == Prob(rows[j], out[j])
      invariant Verdict(rows, drafts, uniforms, pick) == out + Verdict(rows[i..], drafts[i..], uniforms[i..], pick)
    {
      VerdictStep(rows, drafts, uniforms, pick, i);
      if Prob(rows[i], drafts[i]) >= uniforms[i] {
        out, probs := out + [drafts[i]], probs + [Prob(rows[i], drafts[i])];
        continue;
      }
      var recovered := Replacement(rows[i], drafts[i], pick);
      return out + [recovered], probs + [Prob(rows[i], recovered)];
    }
    VerdictStep(rows, drafts, uniforms, pick, |drafts|);
    var bonus := pick(rows[|drafts|]);
    out, probs := out + [bonus], probs + [Prob(rows[|drafts|], bonus)];
  }

  /** Whatever the draws, the verifier emits a burst the distribution allows. */
  lemma {:induction false} VerdictIsEmittable(rows: seq<Dist>, drafts: seq<Token>, uniforms: seq<real>, pick: Dist -> Token)
    requires Rows(rows, drafts) && Sampler(pick) && |uniforms| == |drafts|
    requires forall i :: 0 <= i < |uniforms| ==> 0.0 <= uniforms[i] < 1.0
    ensures Emittable(drafts, Verdict(rows, drafts, uniforms, pick))
    decreases |drafts|
  {
    hide IsDist, Sampler, Replacement, Sum;
    if drafts != [] {
      if Prob(rows[0], drafts[0]) >= uniforms[0] {
        VerdictIsEmittable(rows[1..], drafts[1..], uniforms[1..], pick);
        var tail := Verdict(rows[1..], drafts[1..], uniforms[1..], pick);
        assert ([drafts[0]] + tail)[1..] == tail;
      } else {
        ReplacementDiffers(rows[0], drafts[0], pick, uniforms[0]);
      }
    }
  }
}

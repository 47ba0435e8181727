/** Greedy speculative decoding: verification of a draft against the target's own choices,
    trimming, and the proof that any drafts leave the output of a run unchanged. */
module SpecDecode {
  import opened Kv
  import opened BlockPool
  import opened Requests

  // ----- verification and trimming -----

  /** What greedy verification emits: target choices while they agree with the draft, then
      the first disagreement, or one bonus token. */
  function Verified(drafts: seq<Token>, choices: seq<Token>): seq<Token>
    requires |choices| == |drafts| + 1
  {
    if drafts == [] || choices[0] != drafts[0] then [choices[0]]
    else [choices[0]] + Verified(drafts[1..], choices[1..])
  }

  /** A nonempty prefix of the target's choices; all but the last were drafted, and a short
      one ends in a disagreement. */
  lemma {:induction false} VerifiedMeaning(drafts: seq<Token>, choices: seq<Token>)
    requires |choices| == |drafts| + 1
    ensures var out := Verified(drafts, choices);
      && 1 <= |out| <= |choices|
      && out == choices[..|out|]
      && out[..|out| - 1] == drafts[..|out| - 1]
      && (|out| <= |drafts| ==> out[|out| - 1] != drafts[|out| - 1])
  {
    if drafts != [] && choices[0] == drafts[0] {
      VerifiedMeaning(drafts[1..], choices[1..]);
      var tail := Verified(drafts[1..], choices[1..]);
      assert choices == [choices[0]] + choices[1..] && drafts == [drafts[0]] + drafts[1..];
      assert choices[..|tail| + 1] == [choices[0]] + choices[1..][..|tail|];
      assert drafts[..|tail|] == [drafts[0]] + drafts[1..][..|tail| - 1];
    }
  }

  lemma VerifiedStep(drafts: seq<Token>, choices: seq<Token>, i: nat)
    requires |choices| == |drafts| + 1 && i <= |drafts|
    ensures var rest := Verified(drafts[i..], choices[i..]);
      if i == |drafts| || choices[i] != drafts[i] then rest == [choices[i]]
      else rest == [choices[i]] + Verified(drafts[i + 1..], choices[i + 1..])
  {
    assert choices[i..][1..] == choices[i + 1..];
    if i < |drafts| {
      assert drafts[i..][1..] == drafts[i + 1..];
    }
  }

  method VerifyGreedy(drafts: seq<Token>, choices: seq<Token>) returns (out: seq<Token>)
    requires |choices| == |drafts| + 1
    ensures out == Verified(drafts, choices)
  {
    hide Verified;
    out := [];
    assert drafts[0..] == drafts && choices[0..] == choices;
    for i := 0 to |drafts|
      invariant Verified(drafts, choices) == out + Verified(drafts[i..], choices[i..])
    {
      VerifiedStep(drafts, choices, i);
      out := out + [choices[i]];
      if choices[i] != drafts[i] {
        return;
      }
    }
    VerifiedStep(drafts, choices, |drafts|);
    out := out + [choices[|drafts|]];
  }

  predicate IsStop(r: Req, eos: Option<Token>, tok: Token) {
    !r.ignoreEos && (tok in r.stops || eos == Some(tok))
  }

  /** `remaining_output_budget`. */
  function OutputRoom(r: Req): nat {
    var produced := |r.tokens| - r.draft - r.prompt;
    if r.maxTokens - produced > 0 then r.maxTokens - produced else 0
  }

  /** Everything up to and including the first stop token. */
  function UpToStop(r: Req, eos: Option<Token>, tokens: seq<Token>): seq<Token> {
    if tokens == [] then []
    else if IsStop(r, eos, tokens[0]) then [tokens[0]]
    else [tokens[0]] + UpToStop(r, eos, tokens[1..])
  }

  lemma {:induction false} UpToStopMeaning(r: Req, eos: Option<Token>, tokens: seq<Token>)
    ensures var out := UpToStop(r, eos, tokens);
      && |out| <= |tokens| && out == tokens[..|out|]
      && (tokens != [] ==> out != [])
      && (forall j :: 0 <= j < |out| - 1 ==> !IsStop(r, eos, out[j]))
      && (|out| < |tokens| ==> out != [] && IsStop(r, eos, out[|out| - 1]))
  {
    if tokens != [] && !IsStop(r, eos, tokens[0]) {
      UpToStopMeaning(r, eos, tokens[1..]);
      var tail := UpToStop(r, eos, tokens[1..]);
      assert tokens[..|tail| + 1] == [tokens[0]] + tokens[1..][..|tail|];
    }
  }

  /** What fits the output budget, up to the first stop token. */
  function Trimmed(r: Req, eos: Option<Token>, tokens: seq<Token>): seq<Token> {
    UpToStop(r, eos, tokens[..Min(OutputRoom(r), |tokens|)])
  }

  lemma UpToStopStep(r: Req, eos: Option<Token>, tokens: seq<Token>, i: nat)
    requires i <= |tokens|
    ensures i == |tokens| ==> UpToStop(r, eos, tokens[i..]) == []
    ensures i < |tokens| ==>
      UpToStop(r, eos, tokens[i..]) ==
        [tokens[i]] + if IsStop(r, eos, tokens[i]) then [] else UpToStop(r, eos, tokens[i + 1..])
  {
    if i < |tokens| {
      assert tokens[i..][1..] == tokens[i + 1..];
    }
  }

  /** `trim_emitted`; recorded tokens, which a teacher forces, are not cut at a stop token. */
  function KeptOf(r: Req, eos: Option<Token>, tokens: seq<Token>, teacher: bool): seq<Token> {
    if teacher then tokens[..Min(OutputRoom(r), |tokens|)] else Trimmed(r, eos, tokens)
  }

  method TrimEmitted(r: Req, eos: Option<Token>, tokens: seq<Token>, teacher: bool) returns (out: seq<Token>)
    ensures out == KeptOf(r, eos, tokens, teacher)
  {
    var kept := tokens[..Min(OutputRoom(r), |tokens|)];
    out := TrimToStop(r, eos, kept, teacher);
  }

  method TrimToStop(r: Req, eos: Option<Token>, kept: seq<Token>, teacher: bool) returns (out: seq<Token>)
    ensures out == if teacher then kept else UpToStop(r, eos, kept)
  {
    hide UpToStop;
    out := [];
    assert kept[0..] == kept;
    for i := 0 to |kept|
      invariant if teacher then out == kept[..i] else UpToStop(r, eos, kept) == out + UpToStop(r, eos, kept[i..])
    {
      UpToStopStep(r, eos, kept, i);
      out := out + [kept[i]];
      if teacher {
        continue;
      }
      if r.ignoreEos {
        continue;
      }
      if kept[i] in r.stops {
        return;
      }
      if eos.Some? && kept[i] == eos.value {
        return;
      }
    }
    UpToStopStep(r, eos, kept, |kept|);
  }

  // ----- when a request is done -----

  datatype Reason = Unfinished | Stop | Length

  /** Judged on the last token only, after it is appended. */
  function FinishReason(r: Req, eos: Option<Token>): Reason {
    var produced := |r.tokens| - r.prompt;
    if r.tokens != [] && IsStop(r, eos, r.tokens[|r.tokens| - 1]) && produced >= r.minTokens then Stop
    else if produced >= r.maxTokens then Length
    else Unfinished
  }

  // ----- whole runs -----

  /** A request still being decoded, with no draft attached. */
  ghost predicate Decoding(r: Req) {
    r.draft == 0 && r.prompt <= |r.tokens| && |r.tokens| - r.prompt < r.maxTokens
  }

  function Append(r: Req, more: seq<Token>): Req {
    r.(tokens := r.tokens + more)
  }

  /** One token at a time until done. */
  ghost function PlainRun(next: seq<Token> -> Token, r: Req, eos: Option<Token>): Req
    requires Decoding(r)
    decreases r.maxTokens - (|r.tokens| - r.prompt)
  {
    var r' := Append(r, [next(r.tokens)]);
    if FinishReason(r', eos) != Unfinished then r' else PlainRun(next, r', eos)
  }

  /** The target's choice at every position of history plus draft. */
  function Choices(next: seq<Token> -> Token, tokens: seq<Token>, drafts: seq<Token>): (choices: seq<Token>)
    ensures |choices| == |drafts| + 1
    ensures forall j :: 0 <= j <= |drafts| ==> choices[j] == next(tokens + drafts[..j])
  {
    seq(|drafts| + 1, j requires 0 <= j <= |drafts| => next(tokens + drafts[..j]))
  }

  /** What one step emits for a request with these drafts; with none it is a plain step. */
  function Burst(next: seq<Token> -> Token, r: Req, eos: Option<Token>, drafts: seq<Token>): seq<Token> {
    Trimmed(r, eos, Verified(drafts, Choices(next, r.tokens, drafts)))
  }

  /** Each emitted token is the target's choice after everything before it. */
  ghost predicate GreedyFrom(next: seq<Token> -> Token, tokens: seq<Token>, from: nat) {
    forall j :: from <= j < |tokens| ==> tokens[j] == next(tokens[..j])
  }

  /** A burst is never empty, is exactly what greedy decoding appends, and every token but
      the last was a draft, so its KV is already right. */
  lemma BurstIsGreedy(next: seq<Token> -> Token, r: Req, eos: Option<Token>, drafts: seq<Token>)
    requires Decoding(r)
    ensures var out := Burst(next, r, eos, drafts);
      && 1 <= |out| <= OutputRoom(r)
      && |out| <= |drafts| + 1 && out[..|out| - 1] == drafts[..|out| - 1]
      && GreedyFrom(next, r.tokens + out, |r.tokens|)
      && (forall j :: 0 <= j < |out| - 1 ==> !IsStop(r, eos, out[j]))
  {
    hide Verified, UpToStop;
    var choices := Choices(next, r.tokens, drafts);
    var emitted := Verified(drafts, choices);
    VerifiedMeaning(drafts, choices);
    var kept := emitted[..Min(OutputRoom(r), |emitted|)];
    UpToStopMeaning(r, eos, kept);
    var out := Burst(next, r, eos, drafts);
    assert out == emitted[..|out|] == choices[..|out|];
    assert out[..|out| - 1] == emitted[..|emitted| - 1][..|out| - 1] == drafts[..|out| - 1];
    EmittedAreChoices(next, r.tokens, drafts, out);
  }

  lemma EmittedAreChoices(next: seq<Token> -> Token, tokens: seq<Token>, drafts: seq<Token>, out: seq<Token>)
    requires 1 <= |out| <= |drafts| + 1
    requires out == Choices(next, tokens, drafts)[..|out|] && out[..|out| - 1] == drafts[..|out| - 1]
    ensures GreedyFrom(next, tokens + out, |tokens|)
  {
    var all := tokens + out;
    forall j | |tokens| <= j < |all|
      ensures all[j] == next(all[..j])
    {
      var i := j - |tokens|;
      assert out[..i] == out[..|out| - 1][..i] == drafts[..i];
      assert all[..j] == tokens + drafts[..i];
    }
  }

  /** Greedy tokens that do not finish the request before the last are exactly the next steps
      of the plain run. */
  lemma {:induction false} PlainFollows(next: seq<Token> -> Token, r: Req, eos: Option<Token>, out: seq<Token>)
    requires Decoding(r) && 1 <= |out| <= OutputRoom(r)
    requires GreedyFrom(next, r.tokens + out, |r.tokens|)
    requires forall j :: 0 <= j < |out| - 1 ==> !IsStop(r, eos, out[j])
    ensures var r' := Append(r, out);
      if FinishReason(r', eos) != Unfinished then PlainRun(next, r, eos) == r'
      else Decoding(r') && PlainRun(next, r, eos) == PlainRun(next, r', eos)
    decreases |out|
  {
    var r1 := Append(r, [out[0]]);
    assert (r.tokens + out)[..|r.tokens|] == r.tokens;
    assert out[0] == (r.tokens + out)[|r.tokens|] == next(r.tokens);
    if |out| == 1 {
      assert out == [out[0]];
    } else {
      assert FinishReason(r1, eos) == Unfinished by {
        assert r1.tokens[|r1.tokens| - 1] == out[0];
        assert IsStop(r1, eos, out[0]) == IsStop(r, eos, out[0]);
      }
      assert r1.tokens + out[1..] == r.tokens + out;
      assert Append(r1, out[1..]) == Append(r, out);
      forall j | 0 <= j < |out[1..]| - 1
        ensures !IsStop(r1, eos, out[1..][j])
      {
        assert out[1..][j] == out[j + 1];
        assert IsStop(r1, eos, out[j + 1]) == IsStop(r, eos, out[j + 1]);
      }
      PlainFollows(next, r1, eos, out[1..]);
    }
  }

  /** Decoding with drafts: `plan(i)` is whatever the proposer attached at step `i`. */
  ghost function SpecRun(next: seq<Token> -> Token, r: Req, eos: Option<Token>, plan: nat -> seq<Token>, i: nat): Req
    requires Decoding(r)
    decreases r.maxTokens - (|r.tokens| - r.prompt)
  {
    BurstIsGreedy(next, r, eos, plan(i));
    var r' := Append(r, Burst(next, r, eos, plan(i)));
    if FinishReason(r', eos) != Unfinished then r' else SpecRun(next, r', eos, plan, i + 1)
  }

  /** Speculation preserves meaning: whatever was drafted at each step, the run ends with the
      same tokens and for the same reason as one-token-at-a-time greedy decoding. */
  lemma {:induction false} SpeculationPreservesMeaning(next: seq<Token> -> Token, r: Req, eos: Option<Token>, plan: nat -> seq<Token>, i: nat)
    requires Decoding(r)
    ensures SpecRun(next, r, eos, plan, i) == PlainRun(next, r, eos)
    decreases r.maxTokens - (|r.tokens| - r.prompt)
  {
    var out := Burst(next, r, eos, plan(i));
    BurstIsGreedy(next, r, eos, plan(i));
    PlainFollows(next, r, eos, out);
    var r' := Append(r, out);
    if FinishReason(r', eos) == Unfinished {
      SpeculationPreservesMeaning(next, r', eos, plan, i + 1);
    }
  }

  /** No proper prefix longer than `from` would have finished the request. */
  ghost predicate UnfinishedBefore(r: Req, eos: Option<Token>, tokens: seq<Token>, from: nat) {
    forall n :: from < n < |tokens| ==> FinishReason(r.(tokens := tokens[..n]), eos) == Unfinished
  }

  /** What the plain run computes: the greedy continuation, cut at the first token that
      finishes the request. */
  lemma {:induction false} PlainRunMeaning(next: seq<Token> -> Token, r: Req, eos: Option<Token>)
    requires Decoding(r)
    ensures var out := PlainRun(next, r, eos);
      && out == r.(tokens := out.tokens)
      && |r.tokens| < |out.tokens| && out.tokens[..|r.tokens|] == r.tokens
      && GreedyFrom(next, out.tokens, |r.tokens|)
      && FinishReason(out, eos) != Unfinished
      && UnfinishedBefore(r, eos, out.tokens, |r.tokens|)
    decreases r.maxTokens - (|r.tokens| - r.prompt)
  {
    hide FinishReason;
    var r1 := Append(r, [next(r.tokens)]);
    var tokens := PlainRun(next, r, eos).tokens;
    if FinishReason(r1, eos) == Unfinished {
      assert Decoding(r1) by { UnfinishedDecodes(r, eos, next(r.tokens)); }
      PlainRunMeaning(next, r1, eos);
      assert tokens[..|r.tokens|] == tokens[..|r1.tokens|][..|r.tokens|] == r.tokens;
      assert tokens[|r.tokens|] == tokens[..|r1.tokens|][|r.tokens|];
      UnfinishedExtends(r, r1, eos, tokens);
    } else {
      assert tokens == r1.tokens && tokens[..|r.tokens|] == r.tokens;
    }
  }

  lemma UnfinishedDecodes(r: Req, eos: Option<Token>, tok: Token)
    requires Decoding(r) && FinishReason(Append(r, [tok]), eos) == Unfinished
    ensures Decoding(Append(r, [tok]))
  {
  }

  lemma UnfinishedExtends(r: Req, r1: Req, eos: Option<Token>, tokens: seq<Token>)
    requires r1 == r.(tokens := r1.tokens) && |r1.tokens| == |r.tokens| + 1 <= |tokens|
    requires tokens[..|r1.tokens|] == r1.tokens
    requires FinishReason(r1, eos) == Unfinished && UnfinishedBefore(r1, eos, tokens, |r1.tokens|)
    ensures UnfinishedBefore(r, eos, tokens, |r.tokens|)
  {
    hide FinishReason;
    forall n | |r.tokens| < n < |tokens|
      ensures FinishReason(r.(tokens := tokens[..n]), eos) == Unfinished
    {
      assert r.(tokens := tokens[..n]) == r1.(tokens := tokens[..n]);
    }
  }
}

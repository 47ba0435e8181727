/** Teacher-forced requests: the recorded tokens replayed one at a time, or in bursts under
    speculation.  A burst is not cut at a stop token, so the two agree exactly when no stop
    token would end the replay before its last recorded token. */
module Forced {
  import opened Kv
  import opened BlockPool
  import opened Requests
  import opened SpecDecode
  import opened Engine

  /** `next_forced_token` where there is one, else the model's own choice. */
  function Scripted(prompt: nat, forced: seq<Token>, next: seq<Token> -> Token): seq<Token> -> Token {
    tokens => if prompt <= |tokens| < prompt + |forced| then forced[|tokens| - prompt] else next(tokens)
  }

  /** The network under which one policy follows the script. */
  function WithScript(net: Net, policy: int, prompt: nat, forced: seq<Token>): Net {
    Net(net.kv, (cells, tokens, p) =>
          if p == policy && prompt <= |tokens| < prompt + |forced| then forced[|tokens| - prompt] else net.pick(cells, tokens, p))
  }

  lemma {:induction false} ScriptKeepsCells(net: Net, policy: int, prompt: nat, forced: seq<Token>, tokens: seq<Token>)
    ensures RefCells(WithScript(net, policy, prompt, forced), tokens) == RefCells(net, tokens)
  {
    if tokens != [] {
      ScriptKeepsCells(net, policy, prompt, forced, tokens[..|tokens| - 1]);
    }
  }

  /** A script is one more way of picking tokens, and touches no cache entry: whatever holds of
      every network holds of a replay that takes one token a step. */
  lemma ScriptIsAPolicy(net: Net, policy: int, prompt: nat, forced: seq<Token>, tokens: seq<Token>)
    ensures Target(WithScript(net, policy, prompt, forced), policy)(tokens) == Scripted(prompt, forced, Target(net, policy))(tokens)
  {
    ScriptKeepsCells(net, policy, prompt, forced, tokens);
  }

  /** A request whose first `|tokens| - prompt` outputs are already there. */
  function Produced(r: Req): nat {
    if |r.tokens| >= r.prompt then |r.tokens| - r.prompt else 0
  }

  /** How many recorded tokens a step may take: `k` if drafts are attached at all, and none are
      before the prefill is complete, which the first output is. */
  function BurstSize(r: Req, forced: seq<Token>, k: nat): nat {
    if Produced(r) == 0 then 0 else Min(Min(k, OutputRoom(r)), if |forced| > Produced(r) then |forced| - Produced(r) else 0)
  }

  /** What one step emits: the recorded tokens as they are, or, without drafts, one token. */
  function Replayed(next: seq<Token> -> Token, r: Req, forced: seq<Token>, k: nat): (out: seq<Token>)
    requires Decoding(r)
    ensures 1 <= |out| <= OutputRoom(r)
  {
    var n := BurstSize(r, forced, k);
    if n == 0 then [Scripted(r.prompt, forced, next)(r.tokens)] else forced[Produced(r)..Produced(r) + n]
  }

  /** With drafts attached a step emits what `trim_emitted` keeps of them: all, stop tokens or
      not, and no bonus token. */
  lemma BurstIsKept(next: seq<Token> -> Token, r: Req, eos: Option<Token>, forced: seq<Token>, k: nat)
    requires Decoding(r) && BurstSize(r, forced, k) > 0
    ensures Produced(r) + BurstSize(r, forced, k) <= |forced|
    ensures Replayed(next, r, forced, k) == KeptOf(r, eos, forced[Produced(r)..Produced(r) + BurstSize(r, forced, k)], true)
  {
    var drafts := forced[Produced(r)..Produced(r) + BurstSize(r, forced, k)];
    assert drafts[..|drafts|] == drafts;
  }

  /** The replay: at step `i` either the configured number of drafts is attached, as far as it
      fits, or none. */
  ghost function Replay(next: seq<Token> -> Token, r: Req, eos: Option<Token>, forced: seq<Token>, k: nat, attach: nat -> bool, i: nat): Req
    requires Decoding(r)
    decreases r.maxTokens - (|r.tokens| - r.prompt)
  {
    var r' := Append(r, Replayed(next, r, forced, if attach(i) then k else 0));
    if FinishReason(r', eos) != Unfinished then r' else Replay(next, r', eos, forced, k, attach, i + 1)
  }

  /** The recorded token at `j` would end the request. */
  predicate EndsAt(r: Req, eos: Option<Token>, forced: seq<Token>, j: nat)
    requires j < |forced|
  {
    IsStop(r, eos, forced[j]) && j + 1 >= r.minTokens
  }

  /** The first output, which always comes alone, ends the request, or no recorded token that a
      burst may pass over does: one before the last that fits. */
  ghost predicate NothingToPassOver(r: Req, eos: Option<Token>, forced: seq<Token>) {
    || (Produced(r) == 0 && forced != [] && EndsAt(r, eos, forced, 0))
    || QuietFrom(r, eos, forced, if Produced(r) == 0 then 1 else Produced(r))
  }

  ghost predicate QuietFrom(r: Req, eos: Option<Token>, forced: seq<Token>, from: nat) {
    forall j: nat :: from <= j < Min(|forced|, r.maxTokens) - 1 ==> !EndsAt(r, eos, forced, j)
  }

  lemma ReplayedIsScripted(next: seq<Token> -> Token, r: Req, forced: seq<Token>, k: nat)
    requires Decoding(r)
    ensures GreedyFrom(Scripted(r.prompt, forced, next), r.tokens + Replayed(next, r, forced, k), |r.tokens|)
  {
    var out := Replayed(next, r, forced, k);
    var all := r.tokens + out;
    forall j | |r.tokens| <= j < |all|
      ensures all[j] == Scripted(r.prompt, forced, next)(all[..j])
    {
      assert |all[..j]| == j;
      assert j == |r.tokens| ==> all[..j] == r.tokens;
    }
  }

  lemma NoEarlyEnd(next: seq<Token> -> Token, r: Req, eos: Option<Token>, forced: seq<Token>, k: nat)
    requires Decoding(r) && (k <= 1 || Produced(r) == 0 || QuietFrom(r, eos, forced, Produced(r)))
    ensures var out := Replayed(next, r, forced, k);
      forall n :: 1 <= n < |out| ==> FinishReason(Append(r, out[..n]), eos) == Unfinished
  {
    hide Scripted, FinishReason, EndsAt;
    var out := Replayed(next, r, forced, k);
    forall n | 1 <= n < |out|
      ensures FinishReason(Append(r, out[..n]), eos) == Unfinished
    {
      assert !EndsAt(r, eos, forced, Produced(r) + n - 1);
      StillUnfinished(r, eos, forced, out[..n]);
    }
  }

  lemma StillUnfinished(r: Req, eos: Option<Token>, forced: seq<Token>, out: seq<Token>)
    requires Decoding(r) && 1 <= |out| < OutputRoom(r) && Produced(r) + |out| <= |forced|
    requires out[|out| - 1] == forced[Produced(r) + |out| - 1] && !EndsAt(r, eos, forced, Produced(r) + |out| - 1)
    ensures FinishReason(Append(r, out), eos) == Unfinished
  {
    var r' := Append(r, out);
    assert r'.tokens[|r'.tokens| - 1] == out[|out| - 1];
    assert IsStop(r', eos, out[|out| - 1]) == IsStop(r, eos, out[|out| - 1]);
  }

  /** Choices that end nothing before the last are the next steps of the plain run. */
  lemma {:induction false} PlainFollowsUnfinished(next: seq<Token> -> Token, r: Req, eos: Option<Token>, out: seq<Token>)
    requires Decoding(r) && 1 <= |out| <= OutputRoom(r) && GreedyFrom(next, r.tokens + out, |r.tokens|)
    requires forall n :: 1 <= n < |out| ==> FinishReason(Append(r, out[..n]), eos) == Unfinished
    ensures var r' := Append(r, out);
      if FinishReason(r', eos) != Unfinished then PlainRun(next, r, eos) == r'
      else Decoding(r') && PlainRun(next, r, eos) == PlainRun(next, r', eos)
    decreases |out|
  {
    hide FinishReason;
    var r1 := Append(r, [out[0]]);
    assert (r.tokens + out)[..|r.tokens|] == r.tokens;
    assert out[0] == (r.tokens + out)[|r.tokens|] == next(r.tokens);
    if |out| == 1 {
      assert out == [out[0]];
      StillDecoding(r, eos, out);
    } else {
      assert out[..1] == [out[0]];
      StillDecoding(r, eos, [out[0]]);
      assert r1.tokens + out[1..] == r.tokens + out && Append(r1, out[1..]) == Append(r, out);
      forall n | 1 <= n < |out[1..]|
        ensures FinishReason(Append(r1, out[1..][..n]), eos) == Unfinished
      {
        assert r1.tokens + out[1..][..n] == r.tokens + out[..n + 1];
        assert Append(r1, out[1..][..n]) == Append(r, out[..n + 1]);
      }
      PlainFollowsUnfinished(next, r1, eos, out[1..]);
    }
  }

  lemma StillDecoding(r: Req, eos: Option<Token>, out: seq<Token>)
    requires Decoding(r) && 1 <= |out| <= OutputRoom(r)
    ensures FinishReason(Append(r, out), eos) == Unfinished ==> Decoding(Append(r, out))
  {
  }

  lemma {:induction false} QuietReplay(next: seq<Token> -> Token, r: Req, eos: Option<Token>, forced: seq<Token>, k: nat, attach: nat -> bool, i: nat)
    requires Decoding(r) && (k <= 1 || NothingToPassOver(r, eos, forced))
    ensures Replay(next, r, eos, forced, k, attach, i) == PlainRun(Scripted(r.prompt, forced, next), r, eos)
    decreases r.maxTokens - (|r.tokens| - r.prompt)
  {
    hide FinishReason, EndsAt, QuietFrom;
    var n := if attach(i) then k else 0;
    var out := Replayed(next, r, forced, n);
    ReplayedIsScripted(next, r, forced, n);
    NoEarlyEnd(next, r, eos, forced, n);
    PlainFollowsUnfinished(Scripted(r.prompt, forced, next), r, eos, out);
    var r' := Append(r, out);
    if FinishReason(r', eos) == Unfinished {
      if k > 1 {
        LaterQuiet(next, r, eos, forced, n);
      }
      QuietReplay(next, r', eos, forced, k, attach, i + 1);
    }
  }

  lemma LaterQuiet(next: seq<Token> -> Token, r: Req, eos: Option<Token>, forced: seq<Token>, k: nat)
    requires Decoding(r) && NothingToPassOver(r, eos, forced)
    requires FinishReason(Append(r, Replayed(next, r, forced, k)), eos) == Unfinished
    ensures NothingToPassOver(Append(r, Replayed(next, r, forced, k)), eos, forced)
  {
    var out := Replayed(next, r, forced, k);
    if Produced(r) == 0 && forced != [] {
      assert out == [forced[0]];
      assert Append(r, out).tokens[|r.tokens|] == forced[0];
      assert IsStop(Append(r, out), eos, forced[0]) == IsStop(r, eos, forced[0]);
    }
    assert forall j: nat :: j < |forced| ==> EndsAt(Append(r, out), eos, forced, j) == EndsAt(r, eos, forced, j);
  }

  lemma {:induction false} ReplayGrows(next: seq<Token> -> Token, r: Req, eos: Option<Token>, forced: seq<Token>, k: nat, attach: nat -> bool, i: nat)
    requires Decoding(r)
    ensures |Replay(next, r, eos, forced, k, attach, i).tokens| >= |r.tokens| + |Replayed(next, r, forced, if attach(i) then k else 0)|
    decreases r.maxTokens - (|r.tokens| - r.prompt)
  {
    var r' := Append(r, Replayed(next, r, forced, if attach(i) then k else 0));
    if FinishReason(r', eos) == Unfinished {
      ReplayGrows(next, r', eos, forced, k, attach, i + 1);
    }
  }

  /** The sequential replay does stop at a recorded stop token. */
  lemma PlainStopsThere(next: seq<Token> -> Token, r: Req, eos: Option<Token>, forced: seq<Token>, j: nat)
    requires Decoding(r) && Produced(r) <= j < |forced| && EndsAt(r, eos, forced, j)
    ensures |PlainRun(Scripted(r.prompt, forced, next), r, eos).tokens| <= r.prompt + j + 1
  {
    hide PlainRun, FinishReason, IsStop, Scripted;
    var script := Scripted(r.prompt, forced, next);
    PlainRunMeaning(script, r, eos);
    var out, n := PlainRun(script, r, eos), r.prompt + j + 1;
    if |out.tokens| > n {
      ScriptAt(next, r.prompt, forced, out.tokens[..n - 1], j);
      StopsAt(r, eos, out.tokens[..n], forced[j]);
    }
  }

  lemma ScriptAt(next: seq<Token> -> Token, prompt: nat, forced: seq<Token>, tokens: seq<Token>, j: nat)
    requires j < |forced| && |tokens| == prompt + j
    ensures Scripted(prompt, forced, next)(tokens) == forced[j]
  {
  }

  lemma StopsAt(r: Req, eos: Option<Token>, tokens: seq<Token>, last: Token)
    requires IsStop(r, eos, last) && tokens != [] && tokens[|tokens| - 1] == last && |tokens| - r.prompt >= r.minTokens
    ensures FinishReason(r.(tokens := tokens), eos) == Stop
  {
  }

  /** One token a step up to `j`, and there a burst that passes over it. */
  lemma {:induction false} BurstAt(next: seq<Token> -> Token, r: Req, eos: Option<Token>, forced: seq<Token>, k: nat, attach: nat -> bool, i: nat, j: nat)
    requires Decoding(r) && k >= 2 && 1 <= j < Min(|forced|, r.maxTokens) - 1 && Produced(r) <= j
    requires forall m: nat :: attach(m) <==> m == i + j - Produced(r)
    requires forall m: nat :: Produced(r) <= m < j ==> !EndsAt(r, eos, forced, m)
    ensures |Replay(next, r, eos, forced, k, attach, i).tokens| >= r.prompt + j + 2
    decreases j - Produced(r)
  {
    hide FinishReason, EndsAt, Scripted;
    if Produced(r) == j {
      ReplayGrows(next, r, eos, forced, k, attach, i);
    } else {
      var out := [forced[Produced(r)]];
      assert Replayed(next, r, forced, 0) == out by { OneRecorded(next, r, forced); }
      StillUnfinished(r, eos, forced, out);
      StillDecoding(r, eos, out);
      SameEnds(r, eos, forced, out);
      BurstAt(next, Append(r, out), eos, forced, k, attach, i + 1, j);
    }
  }

  lemma OneRecorded(next: seq<Token> -> Token, r: Req, forced: seq<Token>)
    requires Decoding(r) && Produced(r) < |forced|
    ensures Replayed(next, r, forced, 0) == [forced[Produced(r)]]
  {
  }

  lemma SameEnds(r: Req, eos: Option<Token>, forced: seq<Token>, out: seq<Token>)
    ensures forall j: nat :: j < |forced| ==> EndsAt(Append(r, out), eos, forced, j) == EndsAt(r, eos, forced, j)
  {
  }

  /** The first recorded token, from `from` on, that would end the request. */
  lemma {:induction false} FirstEnd(r: Req, eos: Option<Token>, forced: seq<Token>, from: nat, j: nat) returns (first: nat)
    requires from <= j < |forced| && EndsAt(r, eos, forced, j)
    ensures from <= first <= j && EndsAt(r, eos, forced, first) && forall m: nat :: from <= m < first ==> !EndsAt(r, eos, forced, m)
    decreases j - from
  {
    hide EndsAt;
    first := from;
    if !EndsAt(r, eos, forced, from) {
      first := FirstEnd(r, eos, forced, from + 1, j);
    }
  }

  /** With up to `k` drafts a step, bursts replay what one token a step replays, whichever steps
      attach them, exactly when `k` is at most one or there is nothing to pass over.  A burst
      itself never looks for stop tokens. */
  lemma ForcedBurstsExact(next: seq<Token> -> Token, r: Req, eos: Option<Token>, forced: seq<Token>, k: nat)
    requires Decoding(r)
    ensures k <= 1 || NothingToPassOver(r, eos, forced) <==>
      forall attach: nat -> bool :: Replay(next, r, eos, forced, k, attach, 0) == PlainRun(Scripted(r.prompt, forced, next), r, eos)
  {
    hide Replay, PlainRun, FinishReason, EndsAt;
    if k <= 1 || NothingToPassOver(r, eos, forced) {
      forall attach: nat -> bool
        ensures Replay(next, r, eos, forced, k, attach, 0) == PlainRun(Scripted(r.prompt, forced, next), r, eos)
      {
        QuietReplay(next, r, eos, forced, k, attach, 0);
      }
    } else {
      var from := if Produced(r) == 0 then 1 else Produced(r);
      var j: nat :| from <= j < Min(|forced|, r.maxTokens) - 1 && EndsAt(r, eos, forced, j);
      var first := FirstEnd(r, eos, forced, from, j);
      var there: nat -> bool := m => m == first - Produced(r);
      PlainStopsThere(next, r, eos, forced, first);
      BurstAt(next, r, eos, forced, k, there, 0, first);
    }
  }
}

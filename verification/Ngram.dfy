/** Prompt-lookup drafting: the incremental first-occurrence index that the engine uses
    and the capped Knuth-Morris-Pratt scan over the reversed history that is its oracle.

    Both are proved against one declarative specification, `Proposal`: the longest suffix
    n-gram in the window that already occurred, at its earliest start, continued by up to
    `k` tokens. */
module Ngram {
  import opened Kv

  // ----- specification -----

  function Window(t: seq<Token>, start: nat, n: nat): seq<Token>
    requires start + n <= |t|
  {
    t[start..start + n]
  }

  /** The last `n` tokens of `t` also occur at `start`, strictly before the suffix itself. */
  ghost predicate Recurs(t: seq<Token>, n: nat, start: nat) {
    start + n < |t| && Window(t, start, n) == t[|t| - n..]
  }

  /** `n` is the longest length in [lo, hi] that recurs and `start` its first occurrence. */
  ghost predicate IsBest(t: seq<Token>, lo: nat, hi: nat, n: nat, start: nat) {
    && lo <= n <= hi
    && Recurs(t, n, start)
    && (forall m: nat, s: nat :: n < m <= hi ==> !Recurs(t, m, s))
    && (forall s: nat :: s < start ==> !Recurs(t, n, s))
  }

  predicate ValidWindow(t: seq<Token>, lo: nat, hi: nat, k: int, limit: int) {
    1 <= lo <= hi && lo <= |t| && k > 0 && limit > |t|
  }

  ghost function Proposal(t: seq<Token>, lo: nat, hi: nat, k: int, limit: int): seq<Token> {
    if ValidWindow(t, lo, hi, k, limit) && exists n: nat, s: nat :: IsBest(t, lo, hi, n, s) then
      var n: nat, s: nat :| IsBest(t, lo, hi, n, s);
      t[s + n..s + n + Min(Min(k, limit - |t|), |t| - (s + n))]
    else
      []
  }

  lemma BestIsUnique(t: seq<Token>, lo: nat, hi: nat, n: nat, s: nat, n': nat, s': nat)
    requires IsBest(t, lo, hi, n, s) && IsBest(t, lo, hi, n', s')
    ensures n == n' && s == s'
  {
    assert Recurs(t, n, s) && Recurs(t, n', s');
  }

  /** What a found match means for the proposal. */
  lemma ProposalFound(t: seq<Token>, lo: nat, hi: nat, k: int, limit: int, n: nat, s: nat)
    requires ValidWindow(t, lo, hi, k, limit)
    requires IsBest(t, lo, hi, n, s)
    ensures Proposal(t, lo, hi, k, limit)
         == t[s + n..s + n + Min(Min(k, limit - |t|), |t| - (s + n))]
  {
    forall n': nat, s': nat | IsBest(t, lo, hi, n', s')
      ensures n' == n && s' == s
    {
      BestIsUnique(t, lo, hi, n, s, n', s');
    }
  }

  /** The earliest recurrence of one length. */
  lemma EarliestStart(t: seq<Token>, n: nat, s: nat) returns (first: nat)
    requires Recurs(t, n, s)
    ensures Recurs(t, n, first)
    ensures forall s': nat :: s' < first ==> !Recurs(t, n, s')
  {
    first := s;
    while exists s': nat :: s' < first && Recurs(t, n, s')
      invariant Recurs(t, n, first)
      decreases first
    {
      var s': nat :| s' < first && Recurs(t, n, s');
      first := s';
    }
  }

  /** Nothing is drafted exactly when the arguments rule it out or no length recurs. */
  lemma ProposalEmptyIff(t: seq<Token>, lo: nat, hi: nat, k: int, limit: int)
    ensures Proposal(t, lo, hi, k, limit) == [] <==>
            (ValidWindow(t, lo, hi, k, limit) ==>
             forall n: nat, s: nat :: lo <= n <= hi ==> !Recurs(t, n, s))
  {
    if ValidWindow(t, lo, hi, k, limit) {
      if n0: nat, s0: nat :| lo <= n0 <= hi && Recurs(t, n0, s0) {
        var n, s := n0, s0;
        while exists m: nat, s': nat :: n < m <= hi && Recurs(t, m, s')
          invariant lo <= n <= hi && Recurs(t, n, s)
          decreases hi - n
        {
          var m: nat, s': nat :| n < m <= hi && Recurs(t, m, s');
          n, s := m, s';
        }
        s := EarliestStart(t, n, s);
        assert IsBest(t, lo, hi, n, s);
        ProposalFound(t, lo, hi, k, limit, n, s);
      }
    }
  }

  /** A proposal repeats history: it is a contiguous stretch of `t`, at most `k` long, and
      never takes the sequence past the model length. */
  lemma ProposalBounds(t: seq<Token>, lo: nat, hi: nat, k: int, limit: int)
    ensures var p := Proposal(t, lo, hi, k, limit);
      p != [] ==>
        && |p| <= k && |t| + |p| <= limit
        && exists n: nat, s: nat {:trigger IsBest(t, lo, hi, n, s)} ::
             IsBest(t, lo, hi, n, s) && s + n + |p| <= |t| && p == t[s + n..s + n + |p|]
  {
    var p := Proposal(t, lo, hi, k, limit);
    if p != [] {
      var n: nat, s: nat :| IsBest(t, lo, hi, n, s);
      ProposalFound(t, lo, hi, k, limit, n, s);
    }
  }

  // ----- the incremental index -----

  /** `table` maps every window of length `n` inside `t` to its earliest start. */
  ghost predicate FirstStarts(t: seq<Token>, n: nat, table: map<seq<Token>, nat>) {
    && (forall key :: key in table ==>
          table[key] + n <= |t| && Window(t, table[key], n) == key)
    && (forall s: nat :: s + n <= |t| ==>
          Window(t, s, n) in table && table[Window(t, s, n)] <= s)
  }

  lemma FirstStartsExtend(t: seq<Token>, n: nat, table: map<seq<Token>, nat>, tok: Token)
    requires n >= 1 && FirstStarts(t, n, table)
    ensures var t' := t + [tok];
      if |t'| < n then FirstStarts(t', n, table)
      else FirstStarts(t', n, if t'[|t'| - n..] in table then table
                              else table[t'[|t'| - n..] := |t'| - n])
  {
    hide Window;
    var t' := t + [tok];
    forall s: nat | s + n <= |t'|
      ensures if s + n <= |t| then Window(t', s, n) == Window(t, s, n) else Window(t', s, n) == t'[|t'| - n..]
    {
      WindowExtends(t, n, s, tok);
    }
  }

  lemma WindowExtends(t: seq<Token>, n: nat, s: nat, tok: Token)
    requires n >= 1 && s + n <= |t| + 1
    ensures var t' := t + [tok]; if s + n <= |t| then Window(t', s, n) == Window(t, s, n) else Window(t', s, n) == t'[|t'| - n..]
  {
  }

  class NgramIndex {
    const minNgram: nat
    const maxNgram: nat
    var tokens: seq<Token>
    var first: seq<map<seq<Token>, nat>>

    ghost predicate Valid()
      reads this
    {
      && |first| == maxNgram + 1
      && forall n :: 1 <= n && minNgram <= n <= maxNgram ==> FirstStarts(tokens, n, first[n])
    }

    constructor (lo: nat, hi: nat)
      ensures Valid() && tokens == [] && minNgram == lo && maxNgram == hi
    {
      minNgram, maxNgram := lo, hi;
      tokens := [];
      first := seq(hi + 1, _ => map[]);
    }

    /** One more token: every window that now ends the history, unless seen before. */
    method Append(token: Token)
      requires Valid()
      modifies this
      ensures Valid() && tokens == old(tokens) + [token]
    {
      ghost var tables := first;
      tokens := tokens + [token];
      var n := minNgram;
      while n <= maxNgram
        invariant minNgram <= n && |first| == maxNgram + 1
        invariant tokens == old(tokens) + [token]
        invariant forall m :: 1 <= m && minNgram <= m < n && m <= maxNgram ==> FirstStarts(tokens, m, first[m])
        invariant forall m :: n <= m <= maxNgram ==> first[m] == tables[m]
      {
        if n >= 1 {
          FirstStartsExtend(old(tokens), n, tables[n], token);
        }
        if |tokens| >= n {
          var key := tokens[|tokens| - n..];
          if key !in first[n] {
            var table: map<seq<Token>, nat> := first[n][key := |tokens| - n];
            first := first[n := table];
          }
        }
        n := n + 1;
      }
    }

    method Extend(more: seq<Token>)
      requires Valid()
      modifies this
      ensures Valid() && tokens == old(tokens) + more
    {
      for i := 0 to |more|
        invariant Valid() && tokens == old(tokens) + more[..i]
      {
        Append(more[i]);
        assert more[..i + 1] == more[..i] + [more[i]];
      }
      assert more[..|more|] == more;
    }

    method Propose(k: int, limit: int) returns (drafts: seq<Token>)
      requires Valid()
      ensures drafts == Proposal(tokens, minNgram, maxNgram, k, limit)
    {
      drafts := ProposeFromFirst(tokens, first, minNgram, maxNgram, k, limit);
    }
  }

  /** A missing or useless table entry means that this length does not recur. */
  lemma NoRecurrence(t: seq<Token>, n: nat, table: map<seq<Token>, nat>)
    requires FirstStarts(t, n, table) && n <= |t|
    requires var key := t[|t| - n..]; key in table ==> table[key] + n >= |t|
    ensures forall s: nat :: !Recurs(t, n, s)
  {
    forall s: nat
      ensures !Recurs(t, n, s)
    {
      if s + n < |t| {
        assert Window(t, s, n) in table && table[Window(t, s, n)] <= s;
      }
    }
  }

  lemma FirstRecurrence(t: seq<Token>, n: nat, table: map<seq<Token>, nat>)
    requires FirstStarts(t, n, table) && n <= |t|
    requires var key := t[|t| - n..]; key in table && table[key] + n < |t|
    ensures var s := table[t[|t| - n..]];
      Recurs(t, n, s) && forall s': nat :: s' < s ==> !Recurs(t, n, s')
  {
    forall s': nat | s' < table[t[|t| - n..]]
      ensures !Recurs(t, n, s')
    {
      if s' + n < |t| {
        assert Window(t, s', n) in table && table[Window(t, s', n)] <= s';
      }
    }
  }

  method ProposeFromFirst(t: seq<Token>, first: seq<map<seq<Token>, nat>>, lo: nat, hi: nat,
                          k: int, limit: int)
    returns (drafts: seq<Token>)
    requires |first| == hi + 1
    requires forall n :: 1 <= n && lo <= n <= hi ==> FirstStarts(t, n, first[n])
    ensures drafts == Proposal(t, lo, hi, k, limit)
  {
    if |t| < lo || k <= 0 || lo < 1 || hi < lo {
      return [];
    }
    var room := Min(k, limit - |t|);
    if room <= 0 {
      return [];
    }
    var n := hi;
    while n >= lo
      invariant lo - 1 <= n <= hi
      invariant forall m: nat, s: nat :: n < m <= hi ==> !Recurs(t, m, s)
    {
      if |t| >= n {
        var key := t[|t| - n..];
        if key in first[n] && first[n][key] + n < |t| {
          var start := first[n][key];
          FirstRecurrence(t, n, first[n]);
          assert IsBest(t, lo, hi, n, start);
          ProposalFound(t, lo, hi, k, limit, n, start);
          return t[start + n..start + n + Min(room, |t| - (start + n))];
        }
        NoRecurrence(t, n, first[n]);
      }
      n := n - 1;
    }
    ProposalEmptyIff(t, lo, hi, k, limit);
    return [];
  }

  // ----- the oracle: capped KMP over the reversed history -----

  function Reverse(t: seq<Token>): seq<Token> {
    seq(|t|, j requires 0 <= j < |t| => t[|t| - 1 - j])
  }

  /** The `n` elements of `r` from `start` repeat its first `n` elements. */
  ghost predicate Agree(r: seq<Token>, start: nat, n: nat)
    requires start + n <= |r|
  {
    n == 0 || (Agree(r, start, n - 1) && r[n - 1] == r[start + n - 1])
  }

  lemma {:induction false} AgreeAt(r: seq<Token>, start: nat, n: nat, j: nat)
    requires j < n && start + n <= |r| && Agree(r, start, n)
    ensures r[j] == r[start + j]
  {
    if j < n - 1 {
      AgreeAt(r, start, n - 1, j);
    }
  }

  lemma {:induction false} AgreePointwise(r: seq<Token>, start: nat, n: nat)
    requires start + n <= |r|
    requires forall j :: 0 <= j < n ==> r[j] == r[start + j]
    ensures Agree(r, start, n)
  {
    if n > 0 {
      AgreePointwise(r, start, n - 1);
    }
  }

  /** Inside a match of length `m`, the stretches before its two ends agree together. */
  lemma {:induction false} AgreeShifts(r: seq<Token>, start: nat, m: nat, offset: nat, n: nat)
    requires start + m <= |r| && Agree(r, start, m) && offset + n <= m
    ensures Agree(r, start + offset, n) <==> Agree(r, offset, n)
  {
    if n > 0 {
      AgreeShifts(r, start, m, offset, n - 1);
      AgreeAt(r, start, m, offset + n - 1);
    }
  }

  /** The first `n` elements of `r` also end at `end`, starting after index 0. */
  ghost predicate Border(r: seq<Token>, end: nat, n: nat) {
    n < end <= |r| && Agree(r, end - n, n)
  }

  lemma BorderExtends(r: seq<Token>, end: nat, n: nat)
    requires end < |r|
    ensures Border(r, end + 1, n + 1) <==> Border(r, end, n) && r[n] == r[end]
  {
  }

  /** Below a border, the shorter borders are those of the matched prefix. */
  lemma BorderOfBorder(r: seq<Token>, end: nat, m: nat, n: nat)
    requires Border(r, end, m) && n < m
    ensures Border(r, end, n) <==> Border(r, m, n)
  {
    AgreeShifts(r, end - m, m, m - n, n);
  }

  /** A border of the reversed sequence is a recurrence of the original suffix. */
  lemma BorderIsRecurrence(t: seq<Token>, end: nat, n: nat)
    requires end <= |t|
    ensures Border(Reverse(t), end, n) <==> n < end && Recurs(t, n, |t| - end)
  {
    var r := Reverse(t);
    if n < end {
      var s := |t| - end;
      if Border(r, end, n) {
        forall j | 0 <= j < n
          ensures Window(t, s, n)[j] == t[|t| - n..][j]
        {
          AgreeAt(r, end - n, n, n - 1 - j);
        }
      }
      if Recurs(t, n, s) {
        forall j | 0 <= j < n
          ensures r[j] == r[end - n + j]
        {
          assert Window(t, s, n)[n - 1 - j] == t[|t| - n..][n - 1 - j];
        }
        AgreePointwise(r, end - n, n);
      }
    }
  }

  ghost predicate LongestBorder(r: seq<Token>, end: nat, n: nat) {
    Border(r, end, n) && forall m: nat :: m > n ==> !Border(r, end, m)
  }

  /** `lps[j]` is the longest proper border of the prefix that ends at `j`, for every
      processed `j` below the cap; unprocessed entries are still zero. */
  ghost predicate FailureTable(r: seq<Token>, lps: seq<nat>, i: nat) {
    && (forall j :: 0 <= j < i && j < |lps| && j < |r| ==> LongestBorder(r, j + 1, lps[j]))
    && (forall j :: i <= j < |lps| ==> lps[j] == 0)
  }

  /** Every capped border longer than `p` fails to extend over `r[i]`. */
  ghost predicate LongerFail(r: seq<Token>, i: nat, hi: nat, p: nat) {
    i < |r| ==> forall n: nat :: p < n < hi && Border(r, i, n) ==> r[n] != r[i]
  }

  /** `longest`/`position` describe the longest capped border seen so far, latest end. */
  ghost predicate BestSoFar(r: seq<Token>, hi: nat, i: nat, longest: nat, position: nat) {
    && longest <= hi
    && (longest > 0 ==> position < i && Border(r, position + 1, longest))
    && (forall e: nat, n: nat :: e <= i && n <= hi && Border(r, e, n) ==> n <= longest)
    && (forall e: nat :: longest > 0 && position + 1 < e <= i ==> !Border(r, e, longest))
  }

  ghost predicate LongestWithin(r: seq<Token>, end: nat, hi: nat, p: nat) {
    Border(r, end, p) && forall n: nat :: n <= hi && Border(r, end, n) ==> n <= p
  }

  /** After a match at `i`, `p + 1` is the longest capped border that ends at `i + 1`. */
  lemma MatchIsLongest(r: seq<Token>, i: nat, hi: nat, p: nat)
    requires 1 <= i < |r| && p < i && p < hi && Border(r, i, p) && r[p] == r[i]
    requires LongerFail(r, i, hi, p)
    ensures LongestWithin(r, i + 1, hi, p + 1)
  {
    BorderExtends(r, i, p);
    var end := i + 1;
    forall n: nat | n <= hi && Border(r, end, n)
      ensures n <= p + 1
    {
      if n > 0 {
        BorderExtends(r, i, n - 1);
      }
    }
  }

  lemma NoMatchAtZero(r: seq<Token>, i: nat, hi: nat)
    requires 1 <= i < |r| && hi >= 1 && LongerFail(r, i, hi, 0) && r[0] != r[i]
    ensures LongestWithin(r, i + 1, hi, 0)
  {
    var end := i + 1;
    forall n: nat | n <= hi && Border(r, end, n)
      ensures n == 0
    {
      if n > 0 {
        BorderExtends(r, i, n - 1);
      }
    }
  }

  lemma UpdateBest(r: seq<Token>, hi: nat, i: nat, longest: nat, position: nat, p: nat)
    requires 1 <= i < |r| && BestSoFar(r, hi, i, longest, position)
    requires p <= hi && LongestWithin(r, i + 1, hi, p)
    ensures p > 0 && p >= longest ==> BestSoFar(r, hi, i + 1, p, i)
    ensures p < longest || longest == 0 == p ==> BestSoFar(r, hi, i + 1, longest, position)
  {
  }

  /** Falling back to a failure entry keeps every longer border hopeless. */
  lemma FallBack(r: seq<Token>, i: nat, hi: nat, p: nat, q: nat)
    requires Border(r, i, p) && 1 <= p <= hi && LongestBorder(r, p, q)
    requires LongerFail(r, i, hi, p)
    requires p < hi && i < |r| ==> r[p] != r[i]
    ensures Border(r, i, q) && LongerFail(r, i, hi, q)
  {
    BorderOfBorder(r, i, p, q);
    if i < |r| {
      forall n: nat | q < n < hi && Border(r, i, n)
        ensures r[n] != r[i]
      {
        if n < p {
          BorderOfBorder(r, i, p, n);
        }
      }
    }
  }

  /** The loop invariant of the scan. */
  ghost predicate Scanned(r: seq<Token>, hi: nat, lps: seq<nat>, i: nat, p: nat, longest: nat, position: nat) {
    && 1 <= i <= |r| && p < i && p < hi && |lps| == hi
    && Border(r, i, p) && LongerFail(r, i, hi, p)
    && FailureTable(r, lps, i)
    && BestSoFar(r, hi, i, longest, position)
  }

  lemma ScanStarts(r: seq<Token>, hi: nat, lps: seq<nat>)
    requires |r| >= 1 && |lps| == hi >= 1 && forall j :: 0 <= j < hi ==> lps[j] == 0
    ensures Scanned(r, hi, lps, 1, 0, 0, 0)
  {
  }

  lemma TableExtends(r: seq<Token>, hi: nat, lps: seq<nat>, i: nat, q: nat)
    requires 1 <= i < |r| && |lps| == hi && FailureTable(r, lps, i) && LongestWithin(r, i + 1, hi, q)
    ensures FailureTable(r, if i < hi then lps[i := q] else lps, i + 1)
  {
  }

  lemma ScanMatches(r: seq<Token>, hi: nat, lps: seq<nat>, i: nat, p: nat, longest: nat, position: nat,
                    lps': seq<nat>, p': nat, longest': nat, position': nat)
    requires Scanned(r, hi, lps, i, p, longest, position) && i < |r| && r[p] == r[i]
    requires lps' == if i < hi then lps[i := p + 1] else lps
    requires p' == if p + 1 == hi then lps'[hi - 1] else p + 1
    requires (longest', position') == if p + 1 >= longest then (p + 1, i) else (longest, position)
    ensures Scanned(r, hi, lps', i + 1, p', longest', position')
  {
    MatchIsLongest(r, i, hi, p);
    UpdateBest(r, hi, i, longest, position, p + 1);
    TableExtends(r, hi, lps, i, p + 1);
    if p + 1 == hi {
      FallBack(r, i + 1, hi, hi, lps[hi - 1]);
    }
  }

  lemma ScanFallsBack(r: seq<Token>, hi: nat, lps: seq<nat>, i: nat, p: nat, longest: nat, position: nat)
    requires Scanned(r, hi, lps, i, p, longest, position) && i < |r| && r[p] != r[i] && p != 0
    ensures lps[p - 1] < p && Scanned(r, hi, lps, i, lps[p - 1], longest, position)
  {
    FallBack(r, i, hi, p, lps[p - 1]);
  }

  lemma ScanMisses(r: seq<Token>, hi: nat, lps: seq<nat>, i: nat, longest: nat, position: nat)
    requires Scanned(r, hi, lps, i, 0, longest, position) && i < |r| && r[0] != r[i]
    ensures Scanned(r, hi, lps, i + 1, 0, longest, position)
  {
    NoMatchAtZero(r, i, hi);
    UpdateBest(r, hi, i, longest, position, 0);
    TableExtends(r, hi, lps, i, 0);
    assert i < hi ==> lps[i := 0] == lps;
  }

  lemma RecurrencesAreBounded(t: seq<Token>, hi: nat, longest: nat, position: nat)
    requires BestSoFar(Reverse(t), hi, |t|, longest, position)
    ensures forall n: nat, s: nat :: n <= hi && Recurs(t, n, s) ==>
      n <= longest && (n == longest && n > 0 ==> s >= |t| - 1 - position)
  {
    forall n: nat, s: nat | n <= hi && Recurs(t, n, s)
      ensures n <= longest && (n == longest && n > 0 ==> s >= |t| - 1 - position)
    {
      BorderIsRecurrence(t, |t| - s, n);
      assert Border(Reverse(t), |t| - s, n);
    }
  }

  lemma ScanResult(t: seq<Token>, lo: nat, hi: nat, k: int, limit: int, longest: nat, position: nat)
    requires ValidWindow(t, lo, hi, k, limit)
    requires BestSoFar(Reverse(t), hi, |t|, longest, position)
    ensures longest < lo ==> Proposal(t, lo, hi, k, limit) == []
    ensures longest >= lo ==>
      && position < |t| && IsBest(t, lo, hi, longest, |t| - 1 - position)
  {
    RecurrencesAreBounded(t, hi, longest, position);
    if longest >= lo {
      BorderIsRecurrence(t, position + 1, longest);
    } else {
      ProposalEmptyIff(t, lo, hi, k, limit);
    }
  }

  /** The scan proper: the longest capped border of `r` and the last place it ends. */
  method ScanReversed(r: seq<Token>, hi: nat) returns (longest: nat, position: nat)
    requires |r| >= 1 && hi >= 1
    ensures BestSoFar(r, hi, |r|, longest, position)
  {
    var lps: seq<nat> := seq(hi, _ => 0);
    var p: nat, i: nat := 0, 1;
    longest, position := 0, 0;
    ScanStarts(r, hi, lps);
    while i < |r|
      invariant Scanned(r, hi, lps, i, p, longest, position)
      decreases |r| - i, p
    {
      if r[p] == r[i] {
        ghost var lps0, p0, longest0, position0 := lps, p, longest, position;
        p := p + 1;
        if p >= longest {
          longest, position := p, i;
        }
        if i < hi {
          lps := lps[i := p];
        }
        if p == hi {
          p := lps[hi - 1];
        }
        ScanMatches(r, hi, lps0, i, p0, longest0, position0, lps, p, longest, position);
        i := i + 1;
      } else if p != 0 {
        ScanFallsBack(r, hi, lps, i, p, longest, position);
        p := lps[p - 1];
      } else {
        ScanMisses(r, hi, lps, i, longest, position);
        i := i + 1;
      }
    }
  }

  method ProposeNgram(t: seq<Token>, lo: nat, hi: nat, k: int, limit: int)
    returns (drafts: seq<Token>)
    ensures drafts == Proposal(t, lo, hi, k, limit)
  {
    if |t| < lo || k <= 0 || lo < 1 || hi < lo {
      return [];
    }
    var room := Min(k, limit - |t|);
    if room <= 0 {
      return [];
    }
    var longest, position := ScanReversed(Reverse(t), hi);
    ScanResult(t, lo, hi, k, limit, longest, position);
    if longest < lo {
      return [];
    }
    var start := |t| - 1 - position + longest;
    ProposalFound(t, lo, hi, k, limit, longest, |t| - 1 - position);
    return t[start..start + Min(room, |t| - start)];
  }
}

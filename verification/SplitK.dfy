/** Paged decode attention over exact reals: the online softmax and the log-sum-exp merge of
    any number of splits give the plain softmax-weighted sum of the gathered rows.

    `exp` and `log` are any functions that satisfy the exponential laws.  One query head and
    one output dimension are followed; the kernels treat each of them alone. */
module SplitK {
  import opened Kv

  // ----- the softmax -----

  /** One key as one query head sees it: its scaled score, and its value in one dimension. */
  datatype Row = Row(score: real, value: real)

  datatype Score = NegInf | Fin(v: real)

  ghost predicate ExpLaws(exp: real -> real, log: real -> real) {
    && (forall a, b :: exp(a + b) == exp(a) * exp(b))
    && (forall a :: exp(a) > 0.0)
    && (forall x :: x > 0.0 ==> exp(log(x)) == x)
  }

  lemma ExpAdd(exp: real -> real, log: real -> real, a: real, b: real)
    requires ExpLaws(exp, log)
    ensures exp(a + b) == exp(a) * exp(b)
  {
  }

  lemma ExpPositive(exp: real -> real, log: real -> real, a: real)
    requires ExpLaws(exp, log)
    ensures exp(a) > 0.0
  {
  }

  lemma ExpOfLog(exp: real -> real, log: real -> real, x: real)
    requires ExpLaws(exp, log) && x > 0.0
    ensures exp(log(x)) == x
  {
  }

  function Mass(exp: real -> real, rows: seq<Row>): real {
    if rows == [] then 0.0 else Mass(exp, rows[..|rows| - 1]) + exp(rows[|rows| - 1].score)
  }

  function Weighted(exp: real -> real, rows: seq<Row>): real {
    if rows == [] then 0.0
    else Weighted(exp, rows[..|rows| - 1]) + exp(rows[|rows| - 1].score) * rows[|rows| - 1].value
  }

  /** The softmax-weighted sum of the values; zero when there are no keys. */
  function Attention(exp: real -> real, rows: seq<Row>): real {
    if Mass(exp, rows) == 0.0 then 0.0 else Weighted(exp, rows) / Mass(exp, rows)
  }

  /** The softmax weights of the rows, one by one. */
  function SoftmaxSum(exp: real -> real, rows: seq<Row>, mass: real): real
    requires mass != 0.0
  {
    if rows == [] then 0.0
    else SoftmaxSum(exp, rows[..|rows| - 1], mass) + (exp(rows[|rows| - 1].score) / mass) * rows[|rows| - 1].value
  }

  lemma {:induction false} MassPositive(exp: real -> real, log: real -> real, rows: seq<Row>)
    requires ExpLaws(exp, log)
    ensures Mass(exp, rows) >= 0.0 && (rows != [] ==> Mass(exp, rows) > 0.0)
  {
    hide ExpLaws;
    if rows != [] {
      MassPositive(exp, log, rows[..|rows| - 1]);
      ExpPositive(exp, log, rows[|rows| - 1].score);
    }
  }

  /** Normalising each weight first gives the same sum. */
  lemma {:induction false} AttentionIsSoftmaxSum(exp: real -> real, rows: seq<Row>, mass: real)
    requires mass != 0.0
    ensures SoftmaxSum(exp, rows, mass) == Weighted(exp, rows) / mass
  {
    if rows != [] {
      AttentionIsSoftmaxSum(exp, rows[..|rows| - 1], mass);
      AddQuotients(Weighted(exp, rows[..|rows| - 1]), exp(rows[|rows| - 1].score), rows[|rows| - 1].value, mass);
    }
  }

  lemma AddQuotients(a: real, e: real, v: real, d: real)
    requires d != 0.0
    ensures a / d + (e / d) * v == (a + e * v) / d
  {
    assert (e / d) * v == (e * v) / d;
  }

  lemma {:induction false} MassConcat(exp: real -> real, a: seq<Row>, b: seq<Row>)
    ensures Mass(exp, a + b) == Mass(exp, a) + Mass(exp, b)
    ensures Weighted(exp, a + b) == Weighted(exp, a) + Weighted(exp, b)
    decreases |b|
  {
    if b == [] {
      assert a + b == a;
    } else {
      assert (a + b)[..|a + b| - 1] == a + b[..|b| - 1];
      MassConcat(exp, a, b[..|b| - 1]);
    }
  }

  // ----- one online step -----

  /** `exp(a - b)`.  Minus infinity on both sides would be NaN and a positive exponent could
      overflow; neither is ever asked for. */
  function ExpDiff(exp: real -> real, a: Score, b: real): real
    requires a.Fin? ==> a.v <= b
  {
    match a
    case NegInf => 0.0
    case Fin(x) => exp(x - b)
  }

  function TileMax(tile: seq<Row>): (m: real)
    requires tile != []
    ensures IsMax(tile, m)
  {
    if |tile| == 1 then tile[0].score
    else
      var m := TileMax(tile[..|tile| - 1]);
      var last := tile[|tile| - 1].score;
      assert forall i :: 0 <= i < |tile| - 1 ==> tile[..|tile| - 1][i] == tile[i];
      if last > m then last else m
  }

  predicate IsMax(rows: seq<Row>, m: real) {
    (exists i :: 0 <= i < |rows| && rows[i].score == m) && forall i :: 0 <= i < |rows| ==> rows[i].score <= m
  }

  function TileMass(exp: real -> real, tile: seq<Row>, m: real): real
    requires forall i :: 0 <= i < |tile| ==> tile[i].score <= m
  {
    if tile == [] then 0.0
    else TileMass(exp, tile[..|tile| - 1], m) + ExpDiff(exp, Fin(tile[|tile| - 1].score), m)
  }

  function TileWeighted(exp: real -> real, tile: seq<Row>, m: real): real
    requires forall i :: 0 <= i < |tile| ==> tile[i].score <= m
  {
    if tile == [] then 0.0
    else TileWeighted(exp, tile[..|tile| - 1], m) + ExpDiff(exp, Fin(tile[|tile| - 1].score), m) * tile[|tile| - 1].value
  }

  datatype Online = Online(max: Score, sum: real, acc: real)

  function MaxScore(a: Score, b: real): real {
    if a.Fin? && a.v > b then a.v else b
  }

  /** One tile: rescale what is there to the new maximum and add the tile. */
  function OnlineStep(exp: real -> real, st: Online, tile: seq<Row>): Online
    requires tile != []
  {
    var m := MaxScore(st.max, TileMax(tile));
    var scale := ExpDiff(exp, st.max, m);
    Online(Fin(m), st.sum * scale + TileMass(exp, tile, m), st.acc * scale + TileWeighted(exp, tile, m))
  }

  /** The state stands for exactly these rows, up to a common scale. */
  ghost predicate Scaled(exp: real -> real, st: Online, rows: seq<Row>) {
    if rows == [] then st == Online(NegInf, 0.0, 0.0)
    else
      && st.max.Fin?
      && st.sum * exp(st.max.v) == Mass(exp, rows) && st.acc * exp(st.max.v) == Weighted(exp, rows)
  }

  /** The scale is the true maximum of the rows. */
  ghost predicate Summarises(exp: real -> real, st: Online, rows: seq<Row>) {
    Scaled(exp, st, rows) && (rows != [] ==> IsMax(rows, st.max.v))
  }

  lemma Unscale(exp: real -> real, log: real -> real, x: real, m: real)
    requires ExpLaws(exp, log)
    ensures exp(x - m) * exp(m) == exp(x)
  {
    hide ExpLaws;
    ExpAdd(exp, log, x - m, m);
    assert (x - m) + m == x;
  }

  lemma ScaledSum(a: real, b: real, e: real, v: real, whole: real, part: real, x: real, c: real)
    requires a == b + e * v && whole == part + x * v && b * c == part && e * c == x
    ensures a * c == whole
  {
    Distribute(b, e, v, c);
  }

  lemma {:induction false} TileMassScaled(exp: real -> real, log: real -> real, tile: seq<Row>, m: real)
    requires ExpLaws(exp, log) && forall i :: 0 <= i < |tile| ==> tile[i].score <= m
    ensures TileMass(exp, tile, m) * exp(m) == Mass(exp, tile)
  {
    hide ExpLaws;
    if tile != [] {
      var init, last := tile[..|tile| - 1], tile[|tile| - 1];
      TileMassScaled(exp, log, init, m);
      Unscale(exp, log, last.score, m);
      ScaledSum(TileMass(exp, tile, m), TileMass(exp, init, m), exp(last.score - m), 1.0,
                Mass(exp, tile), Mass(exp, init), exp(last.score), exp(m));
    }
  }

  lemma {:induction false} TileWeightedScaled(exp: real -> real, log: real -> real, tile: seq<Row>, m: real)
    requires ExpLaws(exp, log) && forall i :: 0 <= i < |tile| ==> tile[i].score <= m
    ensures TileWeighted(exp, tile, m) * exp(m) == Weighted(exp, tile)
  {
    hide ExpLaws;
    if tile != [] {
      var init, last := tile[..|tile| - 1], tile[|tile| - 1];
      TileWeightedScaled(exp, log, init, m);
      Unscale(exp, log, last.score, m);
      ScaledSum(TileWeighted(exp, tile, m), TileWeighted(exp, init, m), exp(last.score - m), last.value,
                Weighted(exp, tile), Weighted(exp, init), exp(last.score), exp(m));
    }
  }

  lemma Distribute(a: real, e: real, v: real, c: real)
    ensures (a + e * v) * c == a * c + (e * c) * v
  {
  }

  lemma MaxConcat(a: seq<Row>, x: real, b: seq<Row>, y: real)
    requires IsMax(a, x) && IsMax(b, y)
    ensures IsMax(a + b, if x > y then x else y)
  {
    var i :| 0 <= i < |a| && a[i].score == x;
    var j :| 0 <= j < |b| && b[j].score == y;
    assert (a + b)[i] == a[i] && (a + b)[|a| + j] == b[j];
  }

  lemma OnlineStepSummarises(exp: real -> real, log: real -> real, st: Online, rows: seq<Row>, tile: seq<Row>)
    requires ExpLaws(exp, log) && Summarises(exp, st, rows) && tile != []
    ensures Summarises(exp, OnlineStep(exp, st, tile), rows + tile)
  {
    hide ExpLaws, Mass, Weighted, TileMass, TileWeighted, TileMax, IsMax;
    var top := TileMax(tile);
    var m := MaxScore(st.max, top);
    TileBelow(tile, top, m);
    TileMassScaled(exp, log, tile, m);
    TileWeightedScaled(exp, log, tile, m);
    MassConcat(exp, rows, tile);
    var scale := ExpDiff(exp, st.max, m);
    if rows == [] {
      assert rows + tile == tile;
      assert st.sum * scale + TileMass(exp, tile, m) == TileMass(exp, tile, m);
    } else {
      MaxConcat(rows, st.max.v, tile, top);
      Unscale(exp, log, st.max.v, m);
      Distribute(TileMass(exp, tile, m), scale, st.sum, exp(m));
      Distribute(TileWeighted(exp, tile, m), scale, st.acc, exp(m));
    }
  }

  lemma TileBelow(tile: seq<Row>, top: real, m: real)
    requires IsMax(tile, top) && top <= m
    ensures forall i :: 0 <= i < |tile| ==> tile[i].score <= m
  {
  }

  // ----- what a finished state is worth -----

  function Normalised(st: Online): real {
    st.acc / (if st.sum > 0.0 then st.sum else 1.0)
  }

  function LogSumExp(log: real -> real, st: Online): Score {
    if st.sum > 0.0 && st.max.Fin? then Fin(st.max.v + log(st.sum)) else NegInf
  }

  lemma QuotientScales(a: real, b: real, c: real)
    requires b > 0.0 && c > 0.0
    ensures b * c > 0.0 && (a * c) / (b * c) == a / b
  {
    assert (a / b) * (b * c) == a * c;
  }

  lemma SumPositive(sum: real, scale: real, mass: real)
    requires scale > 0.0 && sum * scale == mass && mass > 0.0
    ensures sum > 0.0
  {
    assert sum <= 0.0 ==> sum * scale <= 0.0;
  }

  /** Dividing gives the softmax-weighted sum, and the log-sum-exp carries the mass. */
  lemma SummaryMeaning(exp: real -> real, log: real -> real, st: Online, rows: seq<Row>)
    requires ExpLaws(exp, log) && Scaled(exp, st, rows)
    ensures Normalised(st) == Attention(exp, rows)
    ensures rows == [] <==> LogSumExp(log, st) == NegInf
    ensures rows != [] ==> exp(LogSumExp(log, st).v) == Mass(exp, rows)
  {
    hide Mass, Weighted, IsMax, ExpLaws;
    MassPositive(exp, log, rows);
    if rows == [] {
      assert Mass(exp, rows) == 0.0 by { MassOfNothing(exp); }
    } else {
      var scale := exp(st.max.v);
      ExpPositive(exp, log, st.max.v);
      SumPositive(st.sum, scale, Mass(exp, rows));
      QuotientScales(st.acc, st.sum, scale);
      ExpAdd(exp, log, st.max.v, log(st.sum));
      ExpOfLog(exp, log, st.sum);
    }
  }

  lemma MassOfNothing(exp: real -> real)
    ensures Mass(exp, []) == 0.0 && Weighted(exp, []) == 0.0
  {
  }

  // ----- the paged cache -----

  type Pages = seq<seq<Row>>

  ghost predicate PagesHold(cache: Pages, table: seq<nat>, size: nat, length: nat) {
    && size >= 1 && (forall b :: 0 <= b < |cache| ==> |cache[b]| == size)
    && (forall i :: 0 <= i < |table| ==> table[i] < |cache|) && length <= |table| * size
  }

  /** The lane for position `t`; a masked lane reads zeros. */
  function Lane(cache: Pages, table: seq<nat>, size: nat, t: nat): Row {
    if size >= 1 && t / size < |table| && table[t / size] < |cache| && t % size < |cache[table[t / size]]|
    then cache[table[t / size]][t % size]
    else Row(0.0, 0.0)
  }

  /** Positions [0, length) of a sequence, in order. */
  function Gathered(cache: Pages, table: seq<nat>, size: nat, length: nat): (rows: seq<Row>)
    ensures |rows| == length
  {
    seq(length, t requires 0 <= t => Lane(cache, table, size, t))
  }

  lemma LaneInPage(cache: Pages, table: seq<nat>, size: nat, length: nat, p: nat, o: nat)
    requires PagesHold(cache, table, size, length) && o < size && p * size + o < length
    ensures p < |table| && table[p] < |cache| && o < |cache[table[p]]|
    ensures Lane(cache, table, size, p * size + o) == cache[table[p]][o]
  {
    DivModUnique(p * size + o, p, o, size);
    MulOrder(|table|, p, size);
  }

  function CeilDiv(a: nat, b: nat): nat
    requires b >= 1
  {
    (a + b - 1) / b
  }

  lemma CeilDivCovers(a: nat, b: nat)
    requires b >= 1
    ensures a <= CeilDiv(a, b) * b
    ensures a > 0 ==> (CeilDiv(a, b) - 1) * b < a && CeilDiv(a, b) >= 1
    ensures a == 0 ==> CeilDiv(a, b) == 0
  {
    PositionInTable(a + b - 1, 0, b);
    if a > 0 {
      DivMono(b, a + b - 1, b);
      DivModUnique(b, 1, 0, b);
      MulStep(CeilDiv(a, b), b);
    } else {
      DivModUnique(b - 1, 0, b - 1, b);
    }
  }

  /** The page at `p`, as the rows it contributes. */
  lemma PageIsStretch(cache: Pages, table: seq<nat>, size: nat, length: nat, p: nat, n: nat)
    requires PagesHold(cache, table, size, length) && p * size < length && n == (if length - p * size < size then length - p * size else size)
    ensures p < |table| && table[p] < |cache| && n <= |cache[table[p]]|
    ensures cache[table[p]][..n] == Gathered(cache, table, size, length)[p * size..p * size + n]
  {
    hide Lane, PagesHold;
    var start := p * size;
    PageSize(cache, table, size, length, p);
    LaneInPage(cache, table, size, length, p, 0);
    forall o | 0 <= o < n
      ensures cache[table[p]][o] == Gathered(cache, table, size, length)[start + o]
    {
      LaneInPage(cache, table, size, length, p, o);
    }
  }

  lemma PageSize(cache: Pages, table: seq<nat>, size: nat, length: nat, p: nat)
    requires PagesHold(cache, table, size, length)
    ensures size >= 1 && (p < |table| ==> table[p] < |cache| && |cache[table[p]]| == size)
  {
  }

  lemma StretchJoins(rows: seq<Row>, a: nat, b: nat)
    requires a <= b <= |rows|
    ensures rows[..b] == rows[..a] + rows[a..b]
  {
  }

  /** The oracle's gather: whole pages, then the partial one. */
  method GatherReference(cache: Pages, table: seq<nat>, size: nat, length: nat) returns (rows: seq<Row>)
    requires size >= 1 && PagesHold(cache, table, size, length) && length >= 1
    ensures rows == Gathered(cache, table, size, length)
  {
    hide PagesHold, Gathered, CeilDiv;
    rows := [];
    var pages := CeilDiv(length, size);
    CeilDivCovers(length, size);
    ghost var all := Gathered(cache, table, size, length);
    for p := 0 to pages
      invariant rows == all[..Min(p * size, length)]
    {
      MulOrder(p, pages - 1, size);
      var n := Min(size, length - p * size);
      PageIsStretch(cache, table, size, length, p, n);
      StretchJoins(all, p * size, p * size + n);
      MulStep(p + 1, size);
      rows := rows + cache[table[p]][..n];
    }
    assert all[..length] == all;
  }

  /** One page per step, one query head: the readable baseline. */
  method NaiveKernel(exp: real -> real, ghost log: real -> real, cache: Pages, table: seq<nat>, size: nat, length: nat)
    returns (out: real)
    requires ExpLaws(exp, log) && size >= 1 && PagesHold(cache, table, size, length)
    ensures out == Attention(exp, Gathered(cache, table, size, length))
  {
    hide ExpLaws, PagesHold, Gathered, CeilDiv, OnlineStep, Summarises, Attention;
    var st := Online(NegInf, 0.0, 0.0);
    var pages := CeilDiv(length, size);
    CeilDivCovers(length, size);
    ghost var all := Gathered(cache, table, size, length);
    NothingSummarised(exp);
    for p := 0 to pages
      invariant Summarises(exp, st, all[..Min(p * size, length)])
    {
      MulOrder(p, pages - 1, size);
      var n := Min(size, length - p * size);
      PageIsStretch(cache, table, size, length, p, n);
      StretchJoins(all, p * size, p * size + n);
      MulStep(p + 1, size);
      var tile := cache[table[p]][..n];
      OnlineStepSummarises(exp, log, st, all[..p * size], tile);
      st := OnlineStep(exp, st, tile);
    }
    assert all[..length] == all;
    SummaryScaled(exp, st, all);
    SummaryMeaning(exp, log, st, all);
    out := Normalised(st);
  }

  lemma NothingSummarised(exp: real -> real)
    ensures Summarises(exp, Online(NegInf, 0.0, 0.0), [])
  {
  }

  lemma SummaryScaled(exp: real -> real, st: Online, rows: seq<Row>)
    requires Summarises(exp, st, rows)
    ensures Scaled(exp, st, rows)
  {
  }

  // ----- splits -----

  /** Where split `i` begins, clipped to the sequence. */
  function Cut(length: nat, splits: nat, i: nat): nat
    requires splits >= 1
  {
    Min(i * CeilDiv(length, splits), length)
  }

  /** The splits partition [0, length): each begins where the one before it ends. */
  lemma SplitsPartition(length: nat, splits: nat, i: nat)
    requires splits >= 1
    ensures Cut(length, splits, 0) == 0 && Cut(length, splits, splits) == length
    ensures Cut(length, splits, i) <= Cut(length, splits, i + 1) <= length
    ensures Cut(length, splits, i + 1) == Min(i * CeilDiv(length, splits) + CeilDiv(length, splits), length)
  {
    hide CeilDiv;
    var per := CeilDiv(length, splits);
    CeilDivCovers(length, splits);
    assert splits * per == per * splits;
    MulStep(i + 1, per);
  }

  /** A split's share of the rows, tile by tile; an empty share is a zero-trip loop. */
  method SplitKernel(exp: real -> real, ghost log: real -> real, cache: Pages, table: seq<nat>, size: nat, length: nat,
                     splits: nat, id: nat, width: nat)
    returns (st: Online)
    requires ExpLaws(exp, log) && splits >= 1 && width >= 1
    ensures Cut(length, splits, id) <= Cut(length, splits, id + 1) <= length
    ensures Summarises(exp, st, Gathered(cache, table, size, length)[Cut(length, splits, id)..Cut(length, splits, id + 1)])
  {
    hide ExpLaws, CeilDiv, OnlineStep, Summarises, Lane;
    var per := CeilDiv(length, splits);
    var start := id * per;
    var end := Min(start + per, length);
    SplitsPartition(length, splits, id);
    ghost var all := Gathered(cache, table, size, length);
    ghost var from := Cut(length, splits, id);
    st := Online(NegInf, 0.0, 0.0);
    NothingSummarised(exp);
    var n := start;
    assert all[from..Min(n, end)] == [];
    while n < end
      invariant start <= n && from <= Min(n, end) <= end
      invariant Summarises(exp, st, all[from..Min(n, end)])
    {
      var next := Min(n + width, end);
      var tile := seq(next - n, o requires 0 <= o => Lane(cache, table, size, n + o));
      assert tile == all[n..next];
      assert all[from..next] == all[from..n] + all[n..next];
      OnlineStepSummarises(exp, log, st, all[from..n], tile);
      st := OnlineStep(exp, st, tile);
      n := n + width;
    }
  }

  // ----- merging partials -----

  datatype Partial = Partial(value: real, mass: Score)

  /** A split's normalised output and its log-sum-exp. */
  ghost predicate Covers(exp: real -> real, part: Partial, rows: seq<Row>) {
    if rows == [] then part.mass == NegInf
    else part.mass.Fin? && exp(part.mass.v) == Mass(exp, rows) && part.value * Mass(exp, rows) == Weighted(exp, rows)
  }

  lemma PartialCovers(exp: real -> real, log: real -> real, st: Online, rows: seq<Row>)
    requires ExpLaws(exp, log) && Scaled(exp, st, rows)
    ensures Covers(exp, Partial(Normalised(st), LogSumExp(log, st)), rows)
  {
    hide ExpLaws, Mass, Weighted, Normalised, LogSumExp;
    SummaryMeaning(exp, log, st, rows);
    MassPositive(exp, log, rows);
  }

  /** The guards stand for minus infinity against minus infinity. */
  function MergeStep(exp: real -> real, st: Online, part: Partial): Online {
    if part.mass.NegInf? then
      if st.max.NegInf? then Online(NegInf, st.sum * 0.0, st.acc * 0.0)
      else Online(st.max, st.sum * ExpDiff(exp, st.max, st.max.v), st.acc * ExpDiff(exp, st.max, st.max.v))
    else
      var m := MaxScore(st.max, part.mass.v);
      var before := ExpDiff(exp, st.max, m);
      var weight := ExpDiff(exp, part.mass, m);
      Online(Fin(m), st.sum * before + weight, st.acc * before + weight * part.value)
  }

  lemma ExpZero(exp: real -> real, log: real -> real)
    requires ExpLaws(exp, log)
    ensures exp(0.0) == 1.0
  {
    hide ExpLaws;
    var zero: real := 0.0;
    ExpAdd(exp, log, zero, zero);
    ExpPositive(exp, log, zero);
    assert zero + zero == zero;
    FixedSquare(exp(zero), exp(zero + zero));
  }

  lemma FixedSquare(x: real, square: real)
    requires x > 0.0 && square == x * x && square == x
    ensures x == 1.0
  {
    assert x * (x - 1.0) == 0.0;
  }

  lemma MergeTerm(a: real, scale: real, weight: real, v: real, c: real, whole: real, x: real)
    requires (a * scale) * c == whole && weight * c == x
    ensures (a * scale + weight * v) * c == whole + x * v
  {
    Distribute(a * scale, weight, v, c);
  }

  lemma Regroup(a: real, b: real, c: real)
    ensures (a * b) * c == a * (b * c)
  {
  }

  lemma MergeStepScaled(exp: real -> real, log: real -> real, st: Online, rows: seq<Row>, part: Partial, more: seq<Row>)
    requires ExpLaws(exp, log) && Scaled(exp, st, rows) && Covers(exp, part, more)
    ensures Scaled(exp, MergeStep(exp, st, part), rows + more)
  {
    hide ExpLaws, Mass, Weighted;
    MassConcat(exp, rows, more);
    if more == [] {
      assert rows + more == rows;
      ExpZero(exp, log);
    } else {
      var m := MaxScore(st.max, part.mass.v);
      var before := ExpDiff(exp, st.max, m);
      Unscale(exp, log, part.mass.v, m);
      if rows == [] {
        assert rows + more == more;
        MassOfNothing(exp);
      } else {
        Unscale(exp, log, st.max.v, m);
        Regroup(st.sum, before, exp(m));
        Regroup(st.acc, before, exp(m));
      }
      MergeTerm(st.sum, before, ExpDiff(exp, part.mass, m), 1.0, exp(m), Mass(exp, rows), Mass(exp, more));
      MergeTerm(st.acc, before, ExpDiff(exp, part.mass, m), part.value, exp(m), Weighted(exp, rows), Mass(exp, more));
    }
  }

  /** Split, then merge; with one split the program writes its own result directly. */
  method DecodeAttention(exp: real -> real, log: real -> real, cache: Pages, table: seq<nat>, size: nat, length: nat,
                         splits: nat, width: nat)
    returns (out: real)
    requires ExpLaws(exp, log) && splits >= 1 && width >= 1
    ensures out == Attention(exp, Gathered(cache, table, size, length))
  {
    hide ExpLaws, Summarises, Scaled, Attention, Gathered, Cut, LogSumExp, Normalised, MergeStep, Covers;
    ghost var all := Gathered(cache, table, size, length);
    SplitsPartition(length, splits, 0);
    if splits == 1 {
      var st := SplitKernel(exp, log, cache, table, size, length, 1, 0, width);
      assert all[Cut(length, 1, 0)..Cut(length, 1, 1)] == all;
      SummaryScaled(exp, st, all);
      SummaryMeaning(exp, log, st, all);
      return Normalised(st);
    }
    var parts: seq<Partial> := [];
    for id := 0 to splits
      invariant |parts| == id
      invariant forall i :: 0 <= i < id ==> CoversSplit(exp, parts[i], all, length, splits, i)
    {
      var st := SplitKernel(exp, log, cache, table, size, length, splits, id, width);
      SplitCovers(exp, log, st, all, length, splits, id);
      parts := parts + [Partial(Normalised(st), LogSumExp(log, st))];
    }
    out := Combine(exp, log, parts, all, length);
  }

  ghost predicate CoversSplit(exp: real -> real, part: Partial, all: seq<Row>, length: nat, splits: nat, i: nat) {
    && splits >= 1 && |all| == length && Cut(length, splits, i) <= Cut(length, splits, i + 1) <= length
    && Covers(exp, part, all[Cut(length, splits, i)..Cut(length, splits, i + 1)])
  }

  lemma SplitCovers(exp: real -> real, log: real -> real, st: Online, all: seq<Row>, length: nat, splits: nat, id: nat)
    requires ExpLaws(exp, log) && splits >= 1 && |all| == length
    requires Cut(length, splits, id) <= Cut(length, splits, id + 1) <= length
    requires Summarises(exp, st, all[Cut(length, splits, id)..Cut(length, splits, id + 1)])
    ensures CoversSplit(exp, Partial(Normalised(st), LogSumExp(log, st)), all, length, splits, id)
  {
    hide ExpLaws, Scaled, Cut, LogSumExp, Normalised, Covers;
    SummaryScaled(exp, st, all[Cut(length, splits, id)..Cut(length, splits, id + 1)]);
    PartialCovers(exp, log, st, all[Cut(length, splits, id)..Cut(length, splits, id + 1)]);
  }

  /** The merge of all partials, weighted by their log-sum-exps. */
  method Combine(exp: real -> real, ghost log: real -> real, parts: seq<Partial>, ghost all: seq<Row>, ghost length: nat)
    returns (out: real)
    requires ExpLaws(exp, log) && |parts| >= 1
    requires forall i :: 0 <= i < |parts| ==> CoversSplit(exp, parts[i], all, length, |parts|, i)
    ensures out == Attention(exp, all)
  {
    hide ExpLaws, Scaled, Attention, Cut, Normalised, MergeStep, Covers;
    var st := Online(NegInf, 0.0, 0.0);
    SplitsPartition(length, |parts|, 0);
    NothingScaled(exp);
    assert CoversSplit(exp, parts[0], all, length, |parts|, 0);
    assert all[..0] == [];
    for i := 0 to |parts|
      invariant Cut(length, |parts|, i) <= length && Scaled(exp, st, all[..Cut(length, |parts|, i)])
    {
      SplitsPartition(length, |parts|, i);
      var a: nat, b: nat := Cut(length, |parts|, i), Cut(length, |parts|, i + 1);
      assert CoversSplit(exp, parts[i], all, length, |parts|, i);
      StretchJoins(all, a, b);
      MergeStepScaled(exp, log, st, all[..a], parts[i], all[a..b]);
      st := MergeStep(exp, st, parts[i]);
    }
    assert all[..length] == all;
    SummaryMeaning(exp, log, st, all);
    out := Normalised(st);
  }

  lemma NothingScaled(exp: real -> real)
    ensures Scaled(exp, Online(NegInf, 0.0, 0.0), [])
  {
  }

  /** A sequence with no keys attends to nothing. */
  lemma EmptyAttention(exp: real -> real, cache: Pages, table: seq<nat>, size: nat)
    ensures Attention(exp, Gathered(cache, table, size, 0)) == 0.0
  {
    assert Gathered(cache, table, size, 0) == [];
  }

  // ----- choosing the number of splits -----

  function PickSplits(batch: nat, heads: nat, length: nat, units: nat): nat {
    var groups := if batch * heads > 1 then batch * heads else 1;
    if length <= 256 then 1
    else
      var wanted := CeilDiv(length, 128);
      var cap := if units * 2 / groups > 1 then units * 2 / groups else 1;
      var most := Min(32, cap);
      Min(if wanted > 1 then wanted else 1, most)
  }

  /** Whatever the shape, the picker never asks for a split with nothing to do. */
  lemma PickedSplitsAreUsed(batch: nat, heads: nat, length: nat, units: nat, i: nat)
    requires length >= 1 && i < PickSplits(batch, heads, length, units)
    ensures 1 <= PickSplits(batch, heads, length, units) <= 32
    ensures Cut(length, PickSplits(batch, heads, length, units), i) < Cut(length, PickSplits(batch, heads, length, units), i + 1)
  {
    hide CeilDiv;
    var splits := PickSplits(batch, heads, length, units);
    CeilDivCovers(length, 128);
    CeilDivCovers(length, splits);
    SplitsPartition(length, splits, i);
    var per := CeilDiv(length, splits);
    MulOrder(i, splits - 1, per);
    LastSplitStarts(length, splits, per);
  }

  lemma LastSplitStarts(length: nat, splits: nat, per: nat)
    requires 1 <= splits <= 32 && length >= 1 && (splits - 1) * 128 <= length
    requires per >= 1 && (per - 1) * splits < length
    ensures (splits - 1) * per < length
  {
    if splits > 1 {
      SplitsTimesPer(per, splits);
      if per <= 128 {
        MulOrder(per, 128, splits - 1);
      }
    }
  }

  lemma SplitsTimesPer(per: nat, splits: nat)
    requires per >= 1 && splits >= 1
    ensures (per - 1) * splits == (splits - 1) * per + per - splits
  {
  }
}

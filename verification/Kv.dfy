/** The network as the cache sees it, the recompute-from-token-0 reference, and the paged
    pool that must agree with it.

    The transformer is opaque: `Net.kv` gives the cache entry of a position from the entries
    of every earlier position and its token, and `Net.pick` gives the deterministic next
    token from the entries of the whole context.  Nothing else is known about either. */
module Kv {
  type Token = int
  type Cell = int
  type Memory = seq<seq<Cell>>

  datatype Net = Net(kv: (seq<Cell>, Token) -> Cell, pick: (seq<Cell>, seq<Token>, int) -> Token)

  function Min(a: int, b: int): int {
    if a <= b then a else b
  }

  // ----- the reference: recompute every prefix from token 0 -----

  function RefCells(net: Net, tokens: seq<Token>): (cells: seq<Cell>)
    ensures |cells| == |tokens|
  {
    if tokens == [] then []
    else
      var before := RefCells(net, tokens[..|tokens| - 1]);
      before + [net.kv(before, tokens[|tokens| - 1])]
  }

  /** The token the reference runner samples after `tokens`. */
  function RefNext(net: Net, tokens: seq<Token>, policy: int): Token {
    net.pick(RefCells(net, tokens), tokens, policy)
  }

  /** Recomputation is causal: a prefix of the entries depends on that prefix alone. */
  lemma {:induction false} RefCellsPrefix(net: Net, tokens: seq<Token>, n: nat)
    requires n <= |tokens|
    ensures RefCells(net, tokens)[..n] == RefCells(net, tokens[..n])
    decreases |tokens|
  {
    if n == |tokens| {
      assert tokens[..n] == tokens;
    } else {
      var init := tokens[..|tokens| - 1];
      RefCellsPrefix(net, init, n);
      assert init[..n] == tokens[..n];
      assert RefCells(net, tokens)[..n] == RefCells(net, init)[..n];
    }
  }

  // ----- block arithmetic -----

  lemma {:induction false} MulOrder(a: nat, b: nat, bs: nat)
    ensures a <= b ==> a * bs <= b * bs
    ensures a < b ==> a * bs + bs <= b * bs
    decreases b
  {
    if a < b {
      MulOrder(a, b - 1, bs);
      MulStep(b, bs);
    }
  }

  lemma MulStep(n: nat, bs: nat)
    requires n > 0
    ensures n * bs == (n - 1) * bs + bs
  {
  }

  lemma DivModUnique(p: nat, q: nat, o: nat, bs: nat)
    requires bs >= 1 && o < bs && p == q * bs + o
    ensures p / bs == q && p % bs == o
  {
    var d := p / bs;
    assert p == d * bs + p % bs;
    MulOrder(d, q, bs);
    MulOrder(q, d, bs);
  }

  /** The block and offset of a position inside a table. */
  lemma PositionInTable(p: nat, blocks: nat, bs: nat)
    requires bs >= 1
    ensures p == (p / bs) * bs + p % bs && 0 <= p % bs < bs
    ensures p < blocks * bs <==> p / bs < blocks
  {
    var d := p / bs;
    assert p == d * bs + p % bs;
    MulOrder(d, blocks, bs);
    MulOrder(blocks, d, bs);
  }

  lemma DivMono(p: nat, q: nat, bs: nat)
    requires bs >= 1 && p <= q
    ensures p / bs <= q / bs
  {
    PositionInTable(p, 0, bs);
    PositionInTable(q, 0, bs);
    MulOrder(q / bs, p / bs, bs);
  }

  /** How many blocks cover `end` tokens. */
  function BlocksNeededFor(end: int, bs: nat): nat
    requires bs >= 1
  {
    if end <= 0 then 0 else (end + bs - 1) / bs
  }

  /** It is the least number of blocks whose slots cover `end`. */
  lemma BlocksNeededForMeaning(end: int, bs: nat, blocks: nat)
    requires bs >= 1
    ensures BlocksNeededFor(end, bs) <= blocks <==> end <= blocks * bs
  {
    if end > 0 {
      var n := (end + bs - 1) / bs;
      PositionInTable(end + bs - 1, blocks, bs);
      MulOrder(n, blocks, bs);
      MulOrder(blocks, n, bs);
    }
  }

  // ----- the paged pool -----

  ghost predicate MemoryShape(mem: Memory, bs: nat) {
    forall b :: 0 <= b < |mem| ==> |mem[b]| == bs
  }

  ghost predicate InPool(table: seq<nat>, blocks: nat) {
    forall i :: 0 <= i < |table| ==> table[i] < blocks
  }

  /** Every slot of a block table, in logical order. */
  function Flat(mem: Memory, table: seq<nat>): seq<Cell>
    requires InPool(table, |mem|)
  {
    if table == [] then []
    else Flat(mem, table[..|table| - 1]) + mem[table[|table| - 1]]
  }

  lemma {:induction false} FlatLength(mem: Memory, bs: nat, table: seq<nat>)
    requires MemoryShape(mem, bs) && InPool(table, |mem|)
    ensures |Flat(mem, table)| == |table| * bs
  {
    if table != [] {
      FlatLength(mem, bs, table[..|table| - 1]);
      MulStep(|table|, bs);
    }
  }

  lemma FlatAppend(mem: Memory, table: seq<nat>, b: nat)
    requires InPool(table, |mem|) && b < |mem|
    ensures InPool(table + [b], |mem|) && Flat(mem, table + [b]) == Flat(mem, table) + mem[b]
  {
    assert (table + [b])[..|table|] == table;
  }

  /** Paged addressing: position `p` lives in block `p / bs` of the table, at `p % bs`. */
  lemma {:induction false} FlatAt(mem: Memory, bs: nat, table: seq<nat>, p: nat)
    requires bs >= 1 && MemoryShape(mem, bs) && InPool(table, |mem|) && p < |table| * bs
    ensures p / bs < |table| && p % bs < bs
    ensures |Flat(mem, table)| == |table| * bs && Flat(mem, table)[p] == mem[table[p / bs]][p % bs]
  {
    PositionInTable(p, |table|, bs);
    FlatLength(mem, bs, table);
    var init := table[..|table| - 1];
    FlatLength(mem, bs, init);
    if p < |init| * bs {
      FlatAt(mem, bs, init, p);
    } else {
      DivModUnique(p, |init|, p - |init| * bs, bs);
    }
  }

  /** Equal contents in every block of the table give equal reads. */
  lemma {:induction false} FlatSame(mem: Memory, mem': Memory, table: seq<nat>)
    requires InPool(table, |mem|) && |mem'| == |mem|
    requires forall b :: b in table ==> mem'[b] == mem[b]
    ensures Flat(mem', table) == Flat(mem, table)
  {
    if table != [] {
      var init := table[..|table| - 1];
      assert forall b :: b in init ==> b in table;
      assert table[|table| - 1] in table;
      FlatSame(mem, mem', init);
    }
  }

  lemma {:induction false} FlatPrefix(mem: Memory, bs: nat, table: seq<nat>, n: nat)
    requires MemoryShape(mem, bs) && InPool(table, |mem|) && n <= |table|
    ensures n * bs <= |Flat(mem, table)| && Flat(mem, table[..n]) == Flat(mem, table)[..n * bs]
    decreases |table|
  {
    FlatLength(mem, bs, table);
    MulOrder(n, |table|, bs);
    if n == |table| {
      assert table[..n] == table;
    } else {
      var init := table[..|table| - 1];
      FlatLength(mem, bs, init);
      MulOrder(n, |init|, bs);
      FlatPrefix(mem, bs, init, n);
      assert init[..n] == table[..n];
    }
  }

  lemma FlatInBlock(mem: Memory, bs: nat, table: seq<nat>, i: nat, o: nat)
    requires bs >= 1 && MemoryShape(mem, bs) && InPool(table, |mem|) && i < |table| && o < bs
    ensures i * bs + o < |table| * bs == |Flat(mem, table)|
    ensures Flat(mem, table)[i * bs + o] == mem[table[i]][o]
  {
    hide Flat;
    MulOrder(i, |table|, bs);
    DivModUnique(i * bs + o, i, o, bs);
    FlatAt(mem, bs, table, i * bs + o);
  }

  /** Block `i` of a table, as a stretch of its slots. */
  lemma FlatBlock(mem: Memory, bs: nat, table: seq<nat>, i: nat)
    requires bs >= 1 && MemoryShape(mem, bs) && InPool(table, |mem|) && i < |table|
    ensures 0 <= i * bs && i * bs + bs <= |table| * bs == |Flat(mem, table)|
    ensures Flat(mem, table)[i * bs..i * bs + bs] == mem[table[i]]
  {
    hide Flat;
    MulOrder(i, |table|, bs);
    FlatLength(mem, bs, table);
    var start := i * bs;
    forall o | 0 <= o < bs
      ensures Flat(mem, table)[start + o] == mem[table[i]][o]
    {
      FlatInBlock(mem, bs, table, i, o);
    }
  }

  /** Where the pool keeps position `p` of a sequence. */
  function Slot(table: seq<nat>, bs: nat, p: nat): nat
    requires bs >= 1 && p / bs < |table|
  {
    table[p / bs] * bs + p % bs
  }

  function Store(mem: Memory, bs: nat, slot: nat, cell: Cell): Memory
    requires bs >= 1 && slot / bs < |mem| && slot % bs < |mem[slot / bs]|
  {
    mem[slot / bs := mem[slot / bs][slot % bs := cell]]
  }

  lemma SlotDecodes(table: seq<nat>, bs: nat, p: nat)
    requires bs >= 1 && p / bs < |table|
    ensures Slot(table, bs, p) / bs == table[p / bs] && Slot(table, bs, p) % bs == p % bs
  {
    DivModUnique(Slot(table, bs, p), table[p / bs], p % bs, bs);
  }

  /** The table entry at `i` is used by no other entry of the same table. */
  ghost predicate Once(table: seq<nat>, i: nat) {
    i < |table| && forall j :: 0 <= j < |table| && j != i ==> table[j] != table[i]
  }

  lemma StoredCell(mem: Memory, bs: nat, table: seq<nat>, slot: nat, i: nat, j: nat, o: nat, cell: Cell)
    requires bs >= 1 && MemoryShape(mem, bs) && InPool(table, |mem|) && Once(table, i) && j < |table| && o < bs
    requires slot / bs == table[i] && slot % bs < bs
    ensures var mem' := Store(mem, bs, slot, cell);
      && MemoryShape(mem', bs) && |mem'| == |mem|
      && mem'[table[j]][o] == if i == j && slot % bs == o then cell else mem[table[j]][o]
  {
  }

  lemma StoreReads(mem: Memory, bs: nat, table: seq<nat>, slot: nat, p: nat, cell: Cell, q: nat)
    requires bs >= 1 && MemoryShape(mem, bs) && InPool(table, |mem|) && q < |table| * bs
    requires p / bs < |table| && Once(table, p / bs) && slot / bs == table[p / bs] && slot % bs == p % bs < bs
    ensures var mem' := Store(mem, bs, slot, cell);
      && MemoryShape(mem', bs) && InPool(table, |mem'|) && q < |Flat(mem, table)| == |Flat(mem', table)|
      && Flat(mem', table)[q] == if q == p then cell else Flat(mem, table)[q]
  {
    hide Flat, Store;
    var mem' := Store(mem, bs, slot, cell);
    FlatAt(mem, bs, table, q);
    StoredCell(mem, bs, table, slot, p / bs, q / bs, q % bs, cell);
    FlatAt(mem', bs, table, q);
    SamePosition(p, q, bs);
  }

  lemma SamePosition(p: nat, q: nat, bs: nat)
    requires bs >= 1
    ensures p == q <==> p / bs == q / bs && p % bs == q % bs
  {
    PositionInTable(p, 0, bs);
    PositionInTable(q, 0, bs);
  }

  lemma StoreChangesOneSlot(mem: Memory, bs: nat, table: seq<nat>, p: nat, cell: Cell)
    requires bs >= 1 && MemoryShape(mem, bs) && InPool(table, |mem|) && p < |table| * bs
    requires p / bs < |table| && Once(table, p / bs)
    requires Slot(table, bs, p) / bs == table[p / bs] && Slot(table, bs, p) % bs == p % bs < bs
    ensures var mem' := Store(mem, bs, Slot(table, bs, p), cell);
      && MemoryShape(mem', bs) && |mem'| == |mem|
      && |Flat(mem, table)| == |table| * bs
      && Flat(mem', table) == Flat(mem, table)[p := cell]
      && forall b :: 0 <= b < |mem| && b != table[p / bs] ==> mem'[b] == mem[b]
  {
    hide Flat, Slot;
    var slot := Slot(table, bs, p);
    var mem' := Store(mem, bs, slot, cell);
    FlatLength(mem, bs, table);
    StoreReads(mem, bs, table, slot, p, cell, p);
    forall q | 0 <= q < |table| * bs
      ensures Flat(mem', table)[q] == Flat(mem, table)[p := cell][q]
    {
      StoreReads(mem, bs, table, slot, p, cell, q);
    }
  }

  // ----- one request's share of a forward pass -----

  /** The entry of position `p`, computed from what the pool holds for every earlier
      position and written to the position's slot.  A table that does not cover `p` makes
      the engine fail with an index error; here the pool is then unchanged. */
  ghost function ForwardOne(net: Net, mem: Memory, bs: nat, table: seq<nat>, tokens: seq<Token>, p: nat): Memory {
    if bs >= 1 && MemoryShape(mem, bs) && InPool(table, |mem|) && p < |tokens| && p < |table| * bs then
      FlatLength(mem, bs, table);
      PositionInTable(p, |table|, bs);
      SlotDecodes(table, bs, p);
      Store(mem, bs, Slot(table, bs, p), net.kv(Flat(mem, table)[..p], tokens[p]))
    else mem
  }

  /** Positions [p, end) in order. */
  ghost function Forward(net: Net, mem: Memory, bs: nat, table: seq<nat>, tokens: seq<Token>, p: nat, end: nat): Memory
    decreases end - p
  {
    if p >= end then mem
    else Forward(net, ForwardOne(net, mem, bs, table, tokens, p), bs, table, tokens, p + 1, end)
  }

  /** The pool holds, for the first `n` positions, what recomputation would give. */
  ghost predicate Holds(net: Net, mem: Memory, table: seq<nat>, tokens: seq<Token>, n: nat) {
    && InPool(table, |mem|)
    && n <= |Flat(mem, table)| && n <= |tokens|
    && Flat(mem, table)[..n] == RefCells(net, tokens[..n])
  }

  lemma RefCellsStep(net: Net, tokens: seq<Token>, p: nat)
    requires p < |tokens|
    ensures RefCells(net, tokens[..p + 1])
         == RefCells(net, tokens[..p]) + [net.kv(RefCells(net, tokens[..p]), tokens[p])]
  {
    assert tokens[..p + 1][..p] == tokens[..p];
  }

  lemma HoldsLess(net: Net, mem: Memory, table: seq<nat>, tokens: seq<Token>, n: nat, m: nat)
    requires Holds(net, mem, table, tokens, n) && m <= n
    ensures Holds(net, mem, table, tokens, m)
  {
    RefCellsPrefix(net, tokens[..n], m);
    assert tokens[..n][..m] == tokens[..m];
    assert Flat(mem, table)[..m] == Flat(mem, table)[..n][..m];
  }

  /** One position of a forward pass. */
  lemma ForwardStep(net: Net, mem: Memory, bs: nat, table: seq<nat>, tokens: seq<Token>, p: nat)
    requires bs >= 1 && MemoryShape(mem, bs) && p < |tokens| && p < |table| * bs
    requires Holds(net, mem, table, tokens, p)
    requires Once(table, p / bs)
    ensures var next := ForwardOne(net, mem, bs, table, tokens, p);
      && MemoryShape(next, bs) && |next| == |mem|
      && Holds(net, next, table, tokens, p + 1)
      && forall b :: 0 <= b < |mem| && b != table[p / bs] ==> next[b] == mem[b]
  {
    hide Flat, RefCells;
    PositionInTable(p, |table|, bs);
    SlotDecodes(table, bs, p);
    var cell := net.kv(Flat(mem, table)[..p], tokens[p]);
    var next := Store(mem, bs, Slot(table, bs, p), cell);
    StoreChangesOneSlot(mem, bs, table, p, cell);
    RefCellsStep(net, tokens, p);
    assert Flat(next, table)[..p + 1] == Flat(mem, table)[..p] + [cell];
  }

  /** From entry `from` on, no entry of the table is repeated anywhere in it. */
  ghost predicate UniqueFrom(table: seq<nat>, from: nat) {
    forall i :: from <= i < |table| ==> Once(table, i)
  }

  /** Only blocks that the table names at or after entry `from` differ. */
  ghost predicate WritesOnly(mem: Memory, mem': Memory, table: seq<nat>, from: nat) {
    && |mem'| == |mem|
    && forall b :: 0 <= b < |mem| ==> mem'[b] == mem[b] || NamedFrom(table, from, b)
  }

  ghost predicate NamedFrom(table: seq<nat>, from: nat, b: nat) {
    exists i :: from <= i < |table| && table[i] == b
  }

  lemma WritesOnlyTrans(mem: Memory, mem1: Memory, mem2: Memory, table: seq<nat>, from: nat, from1: nat)
    requires from <= from1 && WritesOnly(mem, mem1, table, from) && WritesOnly(mem1, mem2, table, from1)
    ensures WritesOnly(mem, mem2, table, from)
  {
    forall b | 0 <= b < |mem|
      ensures mem2[b] == mem[b] || NamedFrom(table, from, b)
    {
      if NamedFrom(table, from1, b) {
        var i :| from1 <= i < |table| && table[i] == b;
        assert NamedFrom(table, from, b);
      }
    }
  }

  lemma ForwardOneWrites(net: Net, mem: Memory, bs: nat, table: seq<nat>, tokens: seq<Token>, p: nat)
    requires bs >= 1 && MemoryShape(mem, bs) && p < |tokens| && p < |table| * bs
    requires Holds(net, mem, table, tokens, p) && UniqueFrom(table, p / bs)
    ensures var next := ForwardOne(net, mem, bs, table, tokens, p);
      MemoryShape(next, bs) && WritesOnly(mem, next, table, p / bs) && Holds(net, next, table, tokens, p + 1)
  {
    hide Flat, RefCells, ForwardOne, Holds;
    PositionInTable(p, |table|, bs);
    assert Once(table, p / bs);
    ForwardStep(net, mem, bs, table, tokens, p);
    assert NamedFrom(table, p / bs, table[p / bs]);
  }

  /** Writing exclusive blocks from coherent ones extends coherence, and touches no block
      below the first position written. */
  lemma {:induction false} ForwardHolds(net: Net, mem: Memory, bs: nat, table: seq<nat>, tokens: seq<Token>, p: nat, end: nat)
    requires bs >= 1 && MemoryShape(mem, bs) && p <= end <= |tokens| && end <= |table| * bs
    requires Holds(net, mem, table, tokens, p) && UniqueFrom(table, p / bs)
    ensures var mem' := Forward(net, mem, bs, table, tokens, p, end);
      MemoryShape(mem', bs) && WritesOnly(mem, mem', table, p / bs) && Holds(net, mem', table, tokens, end)
    decreases end - p
  {
    hide Flat, RefCells, Holds, ForwardOne, WritesOnly, MemoryShape;
    if p < end {
      ForwardOneWrites(net, mem, bs, table, tokens, p);
      DivMono(p, p + 1, bs);
      var next := ForwardOne(net, mem, bs, table, tokens, p);
      UniqueLater(table, p / bs, (p + 1) / bs);
      ForwardHolds(net, next, bs, table, tokens, p + 1, end);
      WritesOnlyTrans(mem, next, Forward(net, next, bs, table, tokens, p + 1, end), table, p / bs, (p + 1) / bs);
    } else {
      assert WritesOnly(mem, mem, table, p / bs) by { WritesNothing(mem, table, p / bs); }
    }
  }

  lemma UniqueLater(table: seq<nat>, from: nat, from': nat)
    requires UniqueFrom(table, from) && from <= from'
    ensures UniqueFrom(table, from')
  {
  }

  lemma WritesNothing(mem: Memory, table: seq<nat>, from: nat)
    ensures WritesOnly(mem, mem, table, from)
  {
  }
}

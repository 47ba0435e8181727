/** Moving a request's KV between the paged pool and host memory, block by block. */
module Transfer {
  import opened Kv
  import opened BlockPool
  import opened Ownership

  // ----- what a copy contains -----

  function Identity(n: nat): seq<nat> {
    seq(n, i requires 0 <= i => i)
  }

  /** The first `valid` entries of a block kept, the rest zeroed. */
  function Padded(block: seq<Cell>, valid: nat): (padded: seq<Cell>)
    ensures |padded| == |block|
  {
    seq(|block|, o requires 0 <= o < |block| => if o < valid then block[o] else 0)
  }

  /** `export_blocks`: the named blocks in order; padding after `valid` tokens is zeroed. */
  function Exported(mem: Memory, table: seq<nat>, bs: nat, valid: nat): (buffer: Memory)
    requires InPool(table, |mem|)
    ensures |buffer| == |table|
  {
    seq(|table|, i requires 0 <= i < |table| =>
      if i * bs + bs <= valid then mem[table[i]] else Padded(mem[table[i]], if valid > i * bs then valid - i * bs else 0))
  }

  lemma ExportedShape(mem: Memory, table: seq<nat>, bs: nat, valid: nat)
    requires MemoryShape(mem, bs) && InPool(table, |mem|)
    ensures MemoryShape(Exported(mem, table, bs, valid), bs) && InPool(Identity(|table|), |table|)
  {
  }

  lemma ExportedBlockAt(mem: Memory, table: seq<nat>, bs: nat, valid: nat, i: nat, o: nat)
    requires MemoryShape(mem, bs) && InPool(table, |mem|) && i < |table| && o < bs && i * bs + o < valid
    ensures Exported(mem, table, bs, valid)[i][o] == mem[table[i]][o]
  {
  }

  /** One exported entry. */
  lemma ExportedAt(mem: Memory, table: seq<nat>, bs: nat, valid: nat, p: nat)
    requires bs >= 1 && MemoryShape(mem, bs) && InPool(table, |mem|) && p < valid <= |table| * bs
    ensures p / bs < |table| && p % bs < bs
    ensures |Flat(mem, table)| == |table| * bs
    ensures Exported(mem, table, bs, valid)[p / bs][p % bs] == Flat(mem, table)[p]
  {
    hide Flat, Exported;
    FlatAt(mem, bs, table, p);
    PositionInTable(p, |table|, bs);
    ExportedBlockAt(mem, table, bs, valid, p / bs, p % bs);
  }

  /** A copy gathers to exactly what the table gathered to, for every valid position. */
  lemma ExportedHolds(net: Net, mem: Memory, table: seq<nat>, bs: nat, tokens: seq<Token>, valid: nat)
    requires bs >= 1 && MemoryShape(mem, bs) && Holds(net, mem, table, tokens, valid) && valid <= |table| * bs
    ensures var buffer := Exported(mem, table, bs, valid);
      MemoryShape(buffer, bs) && Holds(net, buffer, Identity(|table|), tokens, valid)
  {
    hide Flat, RefCells, Exported;
    var buffer, id := Exported(mem, table, bs, valid), Identity(|table|);
    ExportedShape(mem, table, bs, valid);
    FlatLength(buffer, bs, id);
    forall p | 0 <= p < valid
      ensures Flat(buffer, id)[p] == Flat(mem, table)[p]
    {
      ExportedAt(mem, table, bs, valid, p);
      FlatAt(buffer, bs, id, p);
    }
    assert Flat(buffer, id)[..valid] == Flat(mem, table)[..valid];
  }

  // ----- putting it back -----

  /** Where each block of a restored table comes from: host memory, or, with `None`, a block
      that was found on the device and is not written. */
  type Sources = seq<Option<seq<Cell>>>

  /** Writes the host blocks, in order. */
  function Imported(mem: Memory, table: seq<nat>, sources: Sources, i: nat): Memory
    decreases |table| - i
  {
    if i >= |table| || i >= |sources| then mem
    else Imported(if sources[i].Some? && table[i] < |mem| then mem[table[i] := sources[i].value] else mem, table, sources, i + 1)
  }

  ghost predicate SourcesFit(table: seq<nat>, sources: Sources, bs: nat) {
    && |sources| == |table|
    && forall i :: 0 <= i < |table| && sources[i].Some? ==> |sources[i].value| == bs && Once(table, i)
  }

  /** `b` is about to be overwritten. */
  ghost predicate Target(table: seq<nat>, sources: Sources, b: nat) {
    exists i :: 0 <= i < |table| && i < |sources| && sources[i].Some? && table[i] == b
  }

  ghost predicate OnlyTargets(mem: Memory, mem': Memory, table: seq<nat>, sources: Sources) {
    |mem'| == |mem| && forall b: nat :: b < |mem| && !Target(table, sources, b) ==> mem'[b] == mem[b]
  }

  lemma {:induction false} ImportedBlocks(mem: Memory, bs: nat, table: seq<nat>, sources: Sources, i: nat)
    requires MemoryShape(mem, bs) && InPool(table, |mem|) && SourcesFit(table, sources, bs) && i <= |table|
    ensures var mem' := Imported(mem, table, sources, i);
      && MemoryShape(mem', bs) && OnlyTargets(mem, mem', table, sources)
      && (forall j :: i <= j < |table| && sources[j].Some? ==> mem'[table[j]] == sources[j].value)
      && (forall j :: 0 <= j < i && sources[j].Some? ==> mem'[table[j]] == mem[table[j]])
    decreases |table| - i
  {
    if i < |table| {
      var next := if sources[i].Some? then mem[table[i] := sources[i].value] else mem;
      ImportedBlocks(next, bs, table, sources, i + 1);
      if sources[i].Some? {
        assert Once(table, i) && Target(table, sources, table[i]);
      }
    }
  }

  /** Block `i` of a table carries the right entries for every valid position in it. */
  ghost predicate Right(net: Net, tokens: seq<Token>, bs: nat, valid: nat, i: nat, block: seq<Cell>) {
    valid <= |tokens| && |block| == bs
    && forall o :: 0 <= o < bs && i * bs + o < valid ==> block[o] == RefCells(net, tokens[..valid])[i * bs + o]
  }

  lemma RightAt(net: Net, tokens: seq<Token>, bs: nat, valid: nat, i: nat, block: seq<Cell>, o: nat)
    requires Right(net, tokens, bs, valid, i, block) && o < bs && i * bs + o < valid
    ensures i * bs + o < |RefCells(net, tokens[..valid])| && o < |block| && block[o] == RefCells(net, tokens[..valid])[i * bs + o]
  {
    hide RefCells;
  }

  /** A table whose every block is right holds the prefix. */
  lemma AssembledHolds(net: Net, mem: Memory, bs: nat, table: seq<nat>, tokens: seq<Token>, valid: nat)
    requires bs >= 1 && MemoryShape(mem, bs) && InPool(table, |mem|) && valid <= |table| * bs && valid <= |tokens|
    requires forall i :: 0 <= i < |table| ==> Right(net, tokens, bs, valid, i, mem[table[i]])
    ensures Holds(net, mem, table, tokens, valid)
  {
    hide Flat, RefCells, Right;
    FlatLength(mem, bs, table);
    forall p | 0 <= p < valid
      ensures Flat(mem, table)[p] == RefCells(net, tokens[..valid])[p]
    {
      FlatAt(mem, bs, table, p);
      PositionInTable(p, |table|, bs);
      RightAt(net, tokens, bs, valid, p / bs, mem[table[p / bs]], p % bs);
    }
    assert Flat(mem, table)[..valid] == RefCells(net, tokens[..valid]);
  }

  /** Conversely, every block of a table that holds a prefix is right. */
  lemma HeldBlockIsRight(net: Net, mem: Memory, bs: nat, table: seq<nat>, tokens: seq<Token>, valid: nat, i: nat)
    requires bs >= 1 && MemoryShape(mem, bs) && Holds(net, mem, table, tokens, valid) && i < |table|
    ensures Right(net, tokens, bs, valid, i, mem[table[i]])
  {
    hide Flat, RefCells;
    forall o | 0 <= o < bs && i * bs + o < valid
      ensures mem[table[i]][o] == RefCells(net, tokens[..valid])[i * bs + o]
    {
      FlatInBlock(mem, bs, table, i, o);
      assert Flat(mem, table)[..valid][i * bs + o] == Flat(mem, table)[i * bs + o];
    }
  }

  /** A block stored under the chain hash of its prefix is right for every history that starts
      with that prefix. */
  lemma HashedBlockIsRight(net: Net, mem: Memory, bs: nat, tokens: seq<Token>, valid: nat, i: nat, e: Entry)
    requires bs >= 1 && MemoryShape(mem, bs) && BlockHolds(net, mem, bs, e)
    requires valid <= |tokens| && i * bs + bs <= valid && e.hash == ChainHash(tokens, bs, i + 1)
    ensures Right(net, tokens, bs, valid, i, mem[e.block])
  {
    hide RefCells, ChainHash, HashTokens;
    var n := i * bs + bs;
    MulStep(i + 1, bs);
    ChainHashTokens(tokens, bs, i + 1);
    RefCellsPrefix(net, tokens[..valid], n);
    assert tokens[..valid][..n] == tokens[..n];
    forall o | 0 <= o < bs && i * bs + o < valid
      ensures mem[e.block][o] == RefCells(net, tokens[..valid])[i * bs + o]
    {
      assert RefCells(net, tokens[..n])[n - bs..][o] == RefCells(net, tokens[..n])[i * bs + o];
      assert RefCells(net, tokens[..valid])[..n][i * bs + o] == RefCells(net, tokens[..valid])[i * bs + o];
    }
  }

  // ----- the copy loops -----

  /** The chunked device-to-host copy, then the zeroed tail of the last block. */
  method ExportBlocks(mem: Memory, table: seq<nat>, bs: nat, valid: nat, perChunk: nat) returns (buffer: Memory)
    requires bs >= 1 && perChunk >= 1 && MemoryShape(mem, bs) && InPool(table, |mem|)
    requires valid <= |table| * bs && |table| * bs < valid + bs
    ensures buffer == Exported(mem, table, bs, valid)
  {
    buffer := [];
    var start := 0;
    while start < |table|
      invariant 0 <= start <= |table|
      invariant buffer == seq(start, i requires 0 <= i < start => mem[table[i]])
    {
      var end := Min(start + perChunk, |table|);
      var chunk := seq(end - start, j requires 0 <= j < end - start => mem[table[start + j]]);
      buffer := buffer + chunk;
      start := end;
    }
    var tail := valid % bs;
    if table != [] && (valid == 0 || tail != 0) {
      buffer := buffer[|table| - 1 := Padded(buffer[|table| - 1], tail)];
    }
    OnlyLastIsPadded(mem, table, bs, valid, buffer);
  }

  /** Every block before the last is full. */
  lemma OnlyLastIsPadded(mem: Memory, table: seq<nat>, bs: nat, valid: nat, buffer: Memory)
    requires bs >= 1 && MemoryShape(mem, bs) && InPool(table, |mem|) && |buffer| == |table|
    requires valid <= |table| * bs && |table| * bs < valid + bs
    requires forall i :: 0 <= i < |table| ==>
      buffer[i] == if i == |table| - 1 && valid % bs != 0 then Padded(mem[table[i]], valid % bs) else mem[table[i]]
    ensures buffer == Exported(mem, table, bs, valid)
  {
    forall i | 0 <= i < |table|
      ensures buffer[i] == Exported(mem, table, bs, valid)[i]
    {
      MulStep(|table|, bs);
      MulOrder(i, |table| - 1, bs);
      if i == |table| - 1 {
        LastBlock(|table|, bs, valid);
      }
    }
  }

  lemma LastBlock(blocks: nat, bs: nat, valid: nat)
    requires bs >= 1 && blocks >= 1 && valid <= blocks * bs && blocks * bs < valid + bs
    ensures 0 <= (blocks - 1) * bs <= valid
    ensures valid == blocks * bs <==> valid % bs == 0
    ensures valid < blocks * bs ==> valid % bs == valid - (blocks - 1) * bs
  {
    MulStep(blocks, bs);
    if valid == blocks * bs {
      DivModUnique(valid, blocks, 0, bs);
    } else {
      DivModUnique(valid, blocks - 1, valid - (blocks - 1) * bs, bs);
    }
  }

  /** The chunked host-to-device copy of one stretch of a buffer. */
  method ImportBlocks(mem: Memory, table: seq<nat>, buffer: Memory, from: nat, to: nat, perChunk: nat, ghost sources: Sources)
    returns (mem': Memory)
    requires perChunk >= 1 && InPool(table, |mem|) && |buffer| == |table| == |sources| && from <= to <= |table|
    requires forall i :: from <= i < to ==> sources[i] == Some(buffer[i])
    ensures |mem'| == |mem| && Imported(mem', table, sources, to) == Imported(mem, table, sources, from)
  {
    mem' := mem;
    var start := from;
    while start < to
      invariant from <= start <= to && |mem'| == |mem|
      invariant Imported(mem', table, sources, start) == Imported(mem, table, sources, from)
    {
      var end := Min(start + perChunk, to);
      while start < end
        invariant from <= start <= end && |mem'| == |mem|
        invariant Imported(mem', table, sources, start) == Imported(mem, table, sources, from)
      {
        mem' := mem'[table[start] := buffer[start]];
        start := start + 1;
      }
    }
  }

  /** Which blocks a snapshot has to supply, given which were found on the device. */
  function Missing(buffer: Memory, hits: seq<bool>): Sources
    requires |hits| == |buffer|
  {
    seq(|buffer|, i requires 0 <= i < |buffer| => if hits[i] then None else Some(buffer[i]))
  }

  /** The mixed restore's import: contiguous missing ranges, never a copy over a device hit. */
  method ImportMissing(mem: Memory, table: seq<nat>, buffer: Memory, hits: seq<bool>, perChunk: nat) returns (mem': Memory)
    requires perChunk >= 1 && InPool(table, |mem|) && |buffer| == |table| == |hits|
    ensures mem' == Imported(mem, table, Missing(buffer, hits), 0)
  {
    mem' := mem;
    ghost var sources := Missing(buffer, hits);
    var start := 0;
    while start < |hits|
      invariant 0 <= start <= |hits| && |mem'| == |mem|
      invariant Imported(mem', table, sources, start) == Imported(mem, table, sources, 0)
    {
      if hits[start] {
        start := start + 1;
        continue;
      }
      var end := start + 1;
      while end < |hits| && !hits[end]
        invariant start < end <= |hits| && forall i :: start <= i < end ==> !hits[i]
      {
        end := end + 1;
      }
      mem' := ImportBlocks(mem', table, buffer, start, end, perChunk, sources);
      start := end;
    }
  }
}

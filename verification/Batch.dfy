/** Packing a batch: which rows it has, where they are written, and why the order in which its
    requests run, or a split into prefills and decodes, makes no difference. */
module Batch {
  import opened Kv
  import opened BlockPool
  import opened Requests
  import opened Ownership
  import opened OwnershipSteps
  import opened System
  import opened SystemInv
  import opened ScheduleInv
  import opened Engine

  // ----- a forward pass reads and writes its own table only -----

  ghost predicate AgreeOn(mem: Memory, mem': Memory, table: seq<nat>) {
    |mem'| == |mem| && forall b :: b in table && b < |mem| ==> mem'[b] == mem[b]
  }

  ghost predicate AgreeOff(mem: Memory, mem': Memory, table: seq<nat>) {
    |mem'| == |mem| && forall b: nat :: b < |mem| && b !in table ==> mem'[b] == mem[b]
  }

  lemma ForwardOneLocal(net: Net, mem: Memory, mem': Memory, bs: nat, table: seq<nat>, tokens: seq<Token>, p: nat)
    requires bs >= 1 && MemoryShape(mem, bs) && MemoryShape(mem', bs) && InPool(table, |mem|)
    requires AgreeOn(mem, mem', table) && p < |tokens| && p < |table| * bs
    ensures var n, n' := ForwardOne(net, mem, bs, table, tokens, p), ForwardOne(net, mem', bs, table, tokens, p);
      && AgreeOn(n, n', table) && AgreeOff(mem, n, table) && AgreeOff(mem', n', table)
      && MemoryShape(n, bs) && MemoryShape(n', bs)
  {
    hide Flat;
    FlatSame(mem, mem', table);
    FlatLength(mem, bs, table);
    PositionInTable(p, |table|, bs);
    SlotDecodes(table, bs, p);
    assert table[p / bs] in table;
  }

  lemma {:induction false} ForwardLocality(net: Net, mem: Memory, mem': Memory, bs: nat, table: seq<nat>, tokens: seq<Token>, p: nat, end: nat)
    requires bs >= 1 && MemoryShape(mem, bs) && MemoryShape(mem', bs) && InPool(table, |mem|)
    requires AgreeOn(mem, mem', table) && end <= |tokens| && end <= |table| * bs
    ensures var n, n' := Forward(net, mem, bs, table, tokens, p, end), Forward(net, mem', bs, table, tokens, p, end);
      AgreeOn(n, n', table) && AgreeOff(mem, n, table) && AgreeOff(mem', n', table) && MemoryShape(n, bs) && MemoryShape(n', bs)
    decreases end - p
  {
    hide ForwardOne, AgreeOn, AgreeOff, MemoryShape;
    if p < end {
      ForwardOneLocal(net, mem, mem', bs, table, tokens, p);
      var n, n' := ForwardOne(net, mem, bs, table, tokens, p), ForwardOne(net, mem', bs, table, tokens, p);
      OffSize(mem, n, table);
      ForwardLocality(net, n, n', bs, table, tokens, p + 1, end);
      OffTrans(mem, n, Forward(net, n, bs, table, tokens, p + 1, end), table);
      OffTrans(mem', n', Forward(net, n', bs, table, tokens, p + 1, end), table);
    } else {
      OffRefl(mem, table);
      OffRefl(mem', table);
    }
  }

  lemma OffSize(mem: Memory, mem': Memory, table: seq<nat>)
    requires AgreeOff(mem, mem', table)
    ensures |mem'| == |mem|
  {
  }

  lemma OffTrans(a: Memory, b: Memory, c: Memory, table: seq<nat>)
    requires AgreeOff(a, b, table) && AgreeOff(b, c, table)
    ensures AgreeOff(a, c, table)
  {
  }

  lemma OffRefl(mem: Memory, table: seq<nat>)
    ensures AgreeOff(mem, mem, table)
  {
  }

  // ----- two scheduled requests -----

  /** What running one scheduled request writes is nobody else's. */
  lemma RunMissesOthers(net: Net, s: Sys, ids: seq<nat>, k: nat, j: nat)
    requires StepInv(net, s, ids) && k in ids && j < |s.reqs| && j != k
    ensures AgreeOn(s.mem, RunOne(net, s, k).mem, s.reqs[j].table)
  {
    hide KvInv, Local, Rest, Queues, Shaped, Forward, Frame;
    KvShape(net, s);
    At(net, s, k);
    ForwardLocal(net, s.pool, s.mem, Rest(s.reqs, k), s.reqs[k], s.reqs[k].computed + s.reqs[k].scheduled);
    TableInRest(s.reqs, k, j);
    OthersAgree(s.pool, s.mem, s.pool, RunOne(net, s, k).mem, Rest(s.reqs, k), s.reqs[j].table);
  }

  lemma OthersAgree(p: Pool, mem: Memory, p': Pool, mem': Memory, rest: multiset<nat>, table: seq<nat>)
    requires Frame(p, mem, p', mem', rest) && multiset(table) <= rest
    ensures AgreeOn(mem, mem', table)
  {
    TableInHeld(table, rest);
  }

  lemma RunRow(net: Net, s: Sys, ids: seq<nat>, k: nat)
    requires StepInv(net, s, ids) && k in ids
    ensures k < |s.reqs| && s.pool.bs >= 1 && MemoryShape(s.mem, s.pool.bs) && InPool(s.reqs[k].table, |s.mem|)
    ensures var r := s.reqs[k]; r.computed + r.scheduled <= |r.tokens| && r.computed + r.scheduled <= |r.table| * s.pool.bs
    ensures RunOne(net, s, k) == s.(mem := Forward(net, s.mem, s.pool.bs, s.reqs[k].table, s.reqs[k].tokens, s.reqs[k].computed, s.reqs[k].computed + s.reqs[k].scheduled))
  {
    hide KvInv, Local, Rest, Queues, Shaped, Forward;
    KvShape(net, s);
    At(net, s, k);
    LocalShape(net, s.pool, s.mem, Rest(s.reqs, k), s.reqs[k]);
  }

  /** The order of two requests in a batch does not matter. */
  lemma RunsCommute(net: Net, s: Sys, ids: seq<nat>, j: nat, k: nat)
    requires StepInv(net, s, ids) && j in ids && k in ids && j != k
    ensures RunOne(net, RunOne(net, s, j), k) == RunOne(net, RunOne(net, s, k), j)
  {
    hide StepInv, Forward, RunOne, MemoryShape, InPool, AgreeOn, AgreeOff, Ready;
    var sj, sk := RunOne(net, s, j), RunOne(net, s, k);
    RunOneInv(net, s, ids, j);
    RunOneInv(net, s, ids, k);
    RunRow(net, s, ids, j);
    RunRow(net, s, ids, k);
    RunRow(net, sj, ids, k);
    RunRow(net, sk, ids, j);
    RunMissesOthers(net, s, ids, j, k);
    RunMissesOthers(net, s, ids, k, j);
    RunMissesOthers(net, sj, ids, k, j);
    RunMissesOthers(net, sk, ids, j, k);
    var rj, rk, bs := s.reqs[j], s.reqs[k], s.pool.bs;
    ForwardLocality(net, s.mem, sj.mem, bs, rk.table, rk.tokens, rk.computed, rk.computed + rk.scheduled);
    ForwardLocality(net, s.mem, sk.mem, bs, rj.table, rj.tokens, rj.computed, rj.computed + rj.scheduled);
    SameMemory(s.mem, sj.mem, sk.mem, RunOne(net, sj, k).mem, RunOne(net, sk, j).mem, rj.table, rk.table);
  }

  lemma SameMemory(mem: Memory, mj: Memory, mk: Memory, mjk: Memory, mkj: Memory, tj: seq<nat>, tk: seq<nat>)
    requires AgreeOff(mem, mj, tj) && AgreeOff(mem, mk, tk) && AgreeOff(mj, mjk, tk) && AgreeOff(mk, mkj, tj)
    requires AgreeOn(mk, mjk, tk) && AgreeOn(mj, mkj, tj)
    requires AgreeOn(mj, mjk, tj) && AgreeOn(mk, mkj, tk)
    ensures mjk == mkj
  {
    forall b: nat | b < |mem|
      ensures mjk[b] == mkj[b]
    {
    }
  }

  // ----- any order -----

  lemma {:induction false} RunToFront(net: Net, s: Sys, ids: seq<nat>, run: seq<nat>, k: nat)
    requires StepInv(net, s, ids) && Distinct(run) && k in run && forall j :: j in run ==> j in ids
    ensures RunAll(net, s, run) == RunAll(net, RunOne(net, s, k), Without(run, k))
    decreases |run|
  {
    hide StepInv, RunOne, Ready;
    if run[0] != k {
      var j, rest := run[0], run[1..];
      assert j in run && k in rest && forall i :: i in rest ==> i in run;
      RunOneInv(net, s, ids, j);
      RunToFront(net, RunOne(net, s, j), ids, rest, k);
      RunsCommute(net, s, ids, j, k);
      assert ([j] + Without(rest, k))[1..] == Without(rest, k);
    }
  }

  lemma NonemptyRun(run: seq<nat>)
    ensures run == [] || exists k :: k in run
  {
    if run != [] {
      assert run[0] in run;
    }
  }

  /** Any two orders of the same requests leave the same pool. */
  lemma {:induction false} RunOrder(net: Net, s: Sys, ids: seq<nat>, run: seq<nat>, run': seq<nat>)
    requires StepInv(net, s, ids) && Distinct(run) && Distinct(run') && (forall j :: j in run <==> j in run') && forall j :: j in run ==> j in ids
    ensures RunAll(net, s, run) == RunAll(net, s, run')
    decreases |run|
  {
    hide StepInv, RunOne, Ready;
    if run == [] {
      NonemptyRun(run');
    } else {
      var k := run[0];
      assert k in run;
      RunToFront(net, s, ids, run', k);
      WithoutElements(run', k);
      RunOneInv(net, s, ids, k);
      assert forall j :: j in run[1..] <==> j in run && j != k;
      RunOrder(net, RunOne(net, s, k), ids, run[1..], Without(run', k));
    }
  }

  lemma {:induction false} RunConcat(net: Net, s: Sys, a: seq<nat>, b: seq<nat>)
    ensures RunAll(net, s, a + b) == RunAll(net, RunAll(net, s, a), b)
    decreases |a|
  {
    hide RunOne;
    if a == [] {
      assert a + b == b;
    } else {
      assert (a + b)[1..] == a[1..] + b;
      RunConcat(net, RunOne(net, s, a[0]), a[1..], b);
    }
  }

  /** `_run_split`: prefills first, then decodes. */
  function Prefills(reqs: seq<Req>, ids: seq<nat>): seq<nat> {
    if ids == [] then [] else (if IsPureDecode(reqs, ids[0]) then [] else [ids[0]]) + Prefills(reqs, ids[1..])
  }

  function Decodes(reqs: seq<Req>, ids: seq<nat>): seq<nat> {
    if ids == [] then [] else (if IsPureDecode(reqs, ids[0]) then [ids[0]] else []) + Decodes(reqs, ids[1..])
  }

  predicate IsPureDecode(reqs: seq<Req>, k: nat) {
    k < |reqs| && reqs[k].PrefillComplete() && reqs[k].scheduled == 1 && reqs[k].Uncomputed() == 1
  }

  lemma {:induction false} SplitMembers(reqs: seq<Req>, ids: seq<nat>)
    requires Distinct(ids)
    ensures Distinct(Prefills(reqs, ids)) && Distinct(Decodes(reqs, ids))
    ensures forall k :: k in Prefills(reqs, ids) <==> k in ids && !IsPureDecode(reqs, k)
    ensures forall k :: k in Decodes(reqs, ids) <==> k in ids && IsPureDecode(reqs, k)
  {
    hide IsPureDecode;
    if ids != [] {
      SplitMembers(reqs, ids[1..]);
      assert forall k :: k in ids <==> k == ids[0] || k in ids[1..];
      assert ids[0] !in ids[1..];
      if IsPureDecode(reqs, ids[0]) {
        DistinctCons(ids[0], Decodes(reqs, ids[1..]));
        assert Prefills(reqs, ids) == Prefills(reqs, ids[1..]);
      } else {
        DistinctCons(ids[0], Prefills(reqs, ids[1..]));
        assert Decodes(reqs, ids) == Decodes(reqs, ids[1..]);
      }
    }
  }

  /** Splitting a batch into prefills and decodes leaves the same pool as running it packed,
      and every request samples the same token. */
  lemma SplitIsPacked(net: Net, s: Sys, ids: seq<nat>)
    requires StepInv(net, s, ids)
    ensures var packed := RunAll(net, s, ids);
      var first := RunAll(net, s, Prefills(s.reqs, ids)); var second := RunAll(net, first, Decodes(s.reqs, ids));
      && second == packed
      && (forall k :: k in Prefills(s.reqs, ids) ==> PagedToken(net, first, k) == PagedToken(net, packed, k))
      && (forall k :: k in Decodes(s.reqs, ids) ==> PagedToken(net, second, k) == PagedToken(net, packed, k))
  {
    hide StepInv, RunAll, Ready, PagedToken, Prefills, Decodes, IsPureDecode, RefToken;
    BatchDistinct(net, s, ids);
    SplitMembers(s.reqs, ids);
    var prefills, decodes := Prefills(s.reqs, ids), Decodes(s.reqs, ids);
    DistinctConcat(prefills, decodes);
    RunConcat(net, s, prefills, decodes);
    RunOrder(net, s, ids, prefills + decodes, ids);
    RunAllInv(net, s, ids, prefills, {});
    RunAllInv(net, s, ids, ids, {});
    var first, packed := RunAll(net, s, prefills), RunAll(net, s, ids);
    forall k | k in prefills
      ensures PagedToken(net, first, k) == PagedToken(net, packed, k)
    {
      PagedTokenIsReference(net, first, k);
      PagedTokenIsReference(net, packed, k);
      SameRefToken(net, first, packed, k);
    }
  }

  lemma BatchDistinct(net: Net, s: Sys, ids: seq<nat>)
    requires StepInv(net, s, ids)
    ensures Distinct(ids)
  {
    hide KvInv, Queues, Planned, Shaped;
    KvShape(net, s);
  }

  lemma SameRefToken(net: Net, s: Sys, s': Sys, k: nat)
    requires s'.reqs == s.reqs
    ensures RefToken(net, s', k) == RefToken(net, s, k)
  {
  }

  // ----- rows and slots -----

  /** Row (i, j) of a batch: the `j`-th scheduled position of its `i`-th request. */
  ghost predicate IsRow(s: Sys, ids: seq<nat>, i: nat, j: nat) {
    i < |ids| && ids[i] < |s.reqs| && j < s.reqs[ids[i]].scheduled
  }

  ghost predicate RowCovered(s: Sys, ids: seq<nat>, i: nat, j: nat) {
    && IsRow(s, ids, i, j) && s.pool.bs >= 1
    && (s.reqs[ids[i]].computed + j) / s.pool.bs < |s.reqs[ids[i]].table|
  }

  ghost function RowSlot(s: Sys, ids: seq<nat>, i: nat, j: nat): nat
    requires RowCovered(s, ids, i, j)
  {
    Slot(s.reqs[ids[i]].table, s.pool.bs, s.reqs[ids[i]].computed + j)
  }

  lemma RowIsCovered(net: Net, s: Sys, ids: seq<nat>, i: nat, j: nat)
    requires StepInv(net, s, ids) && i < |ids| && ids[i] < |s.reqs| && j < s.reqs[ids[i]].scheduled
    ensures RowCovered(s, ids, i, j)
  {
    hide KvInv, Queues, Shaped;
    KvShape(net, s);
    assert ids[i] in ids;
    var r := s.reqs[ids[i]];
    PositionInTable(r.computed + j, |r.table|, s.pool.bs);
  }

  lemma SameTableSlots(table: seq<nat>, bs: nat, p: nat, q: nat)
    requires bs >= 1 && p / bs < |table| && q / bs < |table| && Once(table, p / bs) && p != q
    ensures Slot(table, bs, p) != Slot(table, bs, q)
  {
    hide Slot;
    SlotDecodes(table, bs, p);
    SlotDecodes(table, bs, q);
    SamePosition(p, q, bs);
  }

  lemma OtherTableSlots(table: seq<nat>, table': seq<nat>, bs: nat, p: nat, q: nat)
    requires bs >= 1 && p / bs < |table| && q / bs < |table'| && table[p / bs] !in table'
    ensures Slot(table, bs, p) != Slot(table', bs, q)
  {
    hide Slot;
    SlotDecodes(table, bs, p);
    SlotDecodes(table', bs, q);
    assert table'[q / bs] in table';
  }

  /** No two rows of a batch are written to the same slot. */
  lemma SlotsDistinct(net: Net, s: Sys, ids: seq<nat>, i: nat, j: nat, i': nat, j': nat)
    requires StepInv(net, s, ids) && IsRow(s, ids, i, j) && IsRow(s, ids, i', j') && (i, j) != (i', j')
    ensures RowCovered(s, ids, i, j) && RowCovered(s, ids, i', j')
    ensures RowSlot(s, ids, i, j) != RowSlot(s, ids, i', j')
  {
    hide KvInv, AllShaped, Queues, Slot;
    RowIsCovered(net, s, ids, i, j);
    RowIsCovered(net, s, ids, i', j');
    BatchDistinct(net, s, ids);
    var k, k' := ids[i], ids[i'];
    var p, p' := s.reqs[k].computed + j, s.reqs[k'].computed + j';
    PastMark(s.reqs[k].computed, p, s.pool.bs);
    WriteExclusive(net, s, k, p / s.pool.bs);
    if i == i' {
      SameTableSlots(s.reqs[k].table, s.pool.bs, p, p');
    } else {
      OtherTableSlots(s.reqs[k].table, s.reqs[k'].table, s.pool.bs, p, p');
    }
  }

  /** A position at or past the computed mark lies in a block that is not full yet. */
  lemma PastMark(computed: nat, p: nat, bs: nat)
    requires bs >= 1 && computed <= p
    ensures computed < (p / bs) * bs + bs
  {
    PositionInTable(p, 0, bs);
  }

  // ----- packing -----

  datatype Packed = Packed(ids: seq<Token>, pos: seq<nat>, slots: seq<nat>, cu: seq<nat>, kvLens: seq<nat>, sample: seq<bool>, rows: seq<nat>)

  /** The slot of one position of a table. */
  predicate SlotFor(table: seq<nat>, bs: nat, pos: nat, slot: nat) {
    bs >= 1 && pos / bs < |table| && slot == Slot(table, bs, pos)
  }

  method SlotAt(table: seq<nat>, bs: nat, pos: nat) returns (slot: nat)
    requires bs >= 1 && pos < |table| * bs
    ensures SlotFor(table, bs, pos, slot)
  {
    PositionInTable(pos, |table|, bs);
    var block, offset := pos / bs, pos % bs;
    slot := table[block] * bs + offset;
  }

  /** `slot_mapping`. */
  method SlotMapping(table: seq<nat>, bs: nat, start: nat, n: nat) returns (slots: seq<nat>)
    requires bs >= 1 && start + n <= |table| * bs
    ensures |slots| == n && forall j :: 0 <= j < n ==> SlotFor(table, bs, start + j, slots[j])
  {
    hide SlotFor;
    slots := [];
    for j := 0 to n
      invariant |slots| == j && forall i :: 0 <= i < j ==> SlotFor(table, bs, start + i, slots[i])
    {
      var slot := SlotAt(table, bs, start + j);
      slots := slots + [slot];
    }
  }

  /** Request `i`'s chunk of rows: its scheduled positions, in order. */
  ghost predicate ChunkAt(s: Sys, k: nat, i: nat, packed: Packed) {
    && Packable(s, k) && i + 1 < |packed.cu| && i < |packed.kvLens| && i < |packed.sample|
    && packed.cu[i + 1] == packed.cu[i] + s.reqs[k].scheduled && packed.cu[i + 1] <= |packed.ids| == |packed.pos| == |packed.slots|
    && packed.kvLens[i] == s.reqs[k].computed + s.reqs[k].scheduled
    && (packed.sample[i] <==> s.reqs[k].computed + s.reqs[k].scheduled >= |s.reqs[k].tokens|)
    && forall j: nat :: j < s.reqs[k].scheduled ==> RowAt(s.reqs[k], s.pool.bs, j, packed, packed.cu[i])
  }

  ghost predicate RowAt(r: Req, bs: nat, j: nat, packed: Packed, start: nat) {
    && start + j < |packed.ids| == |packed.pos| == |packed.slots| && bs >= 1
    && r.computed + j < |r.tokens| && (r.computed + j) / bs < |r.table|
    && packed.ids[start + j] == r.tokens[r.computed + j] && packed.pos[start + j] == r.computed + j
    && packed.slots[start + j] == Slot(r.table, bs, r.computed + j)
  }

  /** The rows of the packed batch are the scheduled positions, request after request. */
  ghost predicate RowsRight(s: Sys, ids: seq<nat>, packed: Packed) {
    && |packed.cu| == |ids| + 1 && |packed.kvLens| == |packed.sample| == |ids|
    && packed.cu[0] == 0 && packed.cu[|ids|] == |packed.ids| == |packed.pos| == |packed.slots| == |packed.rows|
    && (forall r :: 0 <= r < |packed.rows| ==> packed.rows[r] == r)
    && forall i :: 0 <= i < |ids| ==> ChunkAt(s, ids[i], i, packed)
  }

  /** What packing needs of a scheduled request. */
  ghost predicate Packable(s: Sys, k: nat) {
    k < |s.reqs| && s.pool.bs >= 1
    && s.reqs[k].computed + s.reqs[k].scheduled <= |s.reqs[k].tokens| && s.reqs[k].computed + s.reqs[k].scheduled <= |s.reqs[k].table| * s.pool.bs
  }

  lemma StepPackable(net: Net, s: Sys, ids: seq<nat>)
    requires StepInv(net, s, ids)
    ensures forall i :: 0 <= i < |ids| ==> Packable(s, ids[i])
  {
    hide KvInv, Queues, Shaped;
    KvShape(net, s);
    assert forall i :: 0 <= i < |ids| ==> ids[i] in ids;
  }

  /** `pack_paged`. */
  method PackPaged(s: Sys, ids: seq<nat>) returns (packed: Packed)
    requires forall i :: 0 <= i < |ids| ==> Packable(s, ids[i])
    ensures RowsRight(s, ids, packed)
  {
    hide ChunkAt;
    packed := Packed([], [], [], [0], [], [], []);
    var i := 0;
    while i < |ids|
      invariant 0 <= i <= |ids|
      invariant RowsRight(s, ids[..i], packed)
    {
      hide RowsRight;
      var r := s.reqs[ids[i]];
      var slots := SlotMapping(r.table, s.pool.bs, r.computed, r.scheduled);
      PackOneRight(s, ids[..i], packed, ids[i], slots);
      assert ids[..i + 1] == ids[..i] + [ids[i]];
      packed := PackOne(packed, r, slots);
      i := i + 1;
    }
    assert ids[..i] == ids;
  }

  function PackOne(packed: Packed, r: Req, slots: seq<nat>): Packed
    requires r.computed + r.scheduled <= |r.tokens|
  {
    var ids := packed.ids + r.tokens[r.computed..r.computed + r.scheduled];
    Packed(ids, packed.pos + seq(r.scheduled, j requires 0 <= j => r.computed + j), packed.slots + slots, packed.cu + [|ids|],
           packed.kvLens + [r.computed + r.scheduled], packed.sample + [r.computed + r.scheduled >= |r.tokens|],
           packed.rows + seq(r.scheduled, j requires 0 <= j => |packed.ids| + j))
  }

  ghost predicate SlotsOf(r: Req, bs: nat, slots: seq<nat>) {
    && bs >= 1 && |slots| == r.scheduled
    && forall j :: 0 <= j < |slots| ==> SlotFor(r.table, bs, r.computed + j, slots[j])
  }

  lemma PackOneNew(s: Sys, ids: seq<nat>, packed: Packed, k: nat, slots: seq<nat>)
    requires RowsRight(s, ids, packed) && Packable(s, k) && SlotsOf(s.reqs[k], s.pool.bs, slots)
    ensures ChunkAt(s, k, |ids|, PackOne(packed, s.reqs[k], slots))
  {
    hide Slot, ChunkAt;
    var r, next := s.reqs[k], PackOne(packed, s.reqs[k], slots);
    assert next.cu[|ids|] == |packed.ids| && next.cu[|ids| + 1] == |packed.ids| + r.scheduled;
    forall j: nat | j < r.scheduled
      ensures RowAt(r, s.pool.bs, j, next, next.cu[|ids|])
    {
      assert SlotFor(r.table, s.pool.bs, r.computed + j, slots[j]);
    }
    ChunkFrom(s, k, |ids|, next);
  }

  lemma ChunkFrom(s: Sys, k: nat, i: nat, packed: Packed)
    requires Packable(s, k) && i + 1 < |packed.cu| && i < |packed.kvLens| && i < |packed.sample|
    requires packed.cu[i + 1] == packed.cu[i] + s.reqs[k].scheduled && packed.cu[i + 1] <= |packed.ids| == |packed.pos| == |packed.slots|
    requires packed.kvLens[i] == s.reqs[k].computed + s.reqs[k].scheduled
    requires packed.sample[i] <==> s.reqs[k].computed + s.reqs[k].scheduled >= |s.reqs[k].tokens|
    requires forall j: nat :: j < s.reqs[k].scheduled ==> RowAt(s.reqs[k], s.pool.bs, j, packed, packed.cu[i])
    ensures ChunkAt(s, k, i, packed)
  {
    hide RowAt;
  }

  lemma PackOneKeeps(s: Sys, packed: Packed, k: nat, slots: seq<nat>, k0: nat, i: nat)
    requires ChunkAt(s, k0, i, packed) && Packable(s, k) && |slots| == s.reqs[k].scheduled
    ensures ChunkAt(s, k0, i, PackOne(packed, s.reqs[k], slots))
  {
    hide Slot;
    var next := PackOne(packed, s.reqs[k], slots);
    forall j: nat | j < s.reqs[k0].scheduled
      ensures RowAt(s.reqs[k0], s.pool.bs, j, next, next.cu[i])
    {
      assert RowAt(s.reqs[k0], s.pool.bs, j, packed, packed.cu[i]);
    }
  }

  lemma PackOneRight(s: Sys, ids: seq<nat>, packed: Packed, k: nat, slots: seq<nat>)
    requires RowsRight(s, ids, packed) && Packable(s, k) && SlotsOf(s.reqs[k], s.pool.bs, slots)
    ensures RowsRight(s, ids + [k], PackOne(packed, s.reqs[k], slots))
  {
    hide ChunkAt, Slot;
    var all, next := ids + [k], PackOne(packed, s.reqs[k], slots);
    forall i | 0 <= i < |all|
      ensures ChunkAt(s, all[i], i, next)
    {
      if i < |ids| {
        PackOneKeeps(s, packed, k, slots, ids[i], i);
      } else {
        PackOneNew(s, ids, packed, k, slots);
      }
    }
  }

  /** `sampled_logit_rows`: the last row of each request that samples. */
  method SampledRows(cu: seq<nat>, sample: seq<bool>) returns (rows: seq<int>)
    requires |cu| == |sample| + 1
    ensures rows == Sampled(cu, sample, |sample|)
  {
    rows := [];
    for i := 0 to |sample|
      invariant rows == Sampled(cu, sample, i)
    {
      if sample[i] {
        var last: int := cu[i + 1];
        rows := rows + [last - 1];
      }
    }
  }

  function Sampled(cu: seq<nat>, sample: seq<bool>, n: nat): seq<int>
    requires n <= |sample| && |cu| == |sample| + 1
  {
    if n == 0 then []
    else
      var last: int := cu[n];
      Sampled(cu, sample, n - 1) + if sample[n - 1] then [last - 1] else []
  }

  /** A sampled row is the last position of its request's history. */
  lemma SampledRowIsLast(s: Sys, ids: seq<nat>, packed: Packed, i: nat)
    requires RowsRight(s, ids, packed) && i < |ids| && Packable(s, ids[i]) && s.reqs[ids[i]].scheduled >= 1 && packed.sample[i]
    ensures var row := packed.cu[i + 1] - 1; var r := s.reqs[ids[i]];
      && 0 <= row < |packed.ids| == |packed.pos| && r.tokens != []
      && packed.pos[row] == |r.tokens| - 1 && packed.ids[row] == r.tokens[|r.tokens| - 1]
  {
    hide Slot;
    assert ChunkAt(s, ids[i], i, packed);
    var r := s.reqs[ids[i]];
    assert RowAt(r, s.pool.bs, r.scheduled - 1, packed, packed.cu[i]);
  }

  /** The packed slots are those of the batch: all different. */
  lemma PackedSlotsDistinct(net: Net, s: Sys, ids: seq<nat>, packed: Packed, i: nat, j: nat, i': nat, j': nat)
    requires StepInv(net, s, ids) && RowsRight(s, ids, packed)
    requires IsRow(s, ids, i, j) && IsRow(s, ids, i', j') && (i, j) != (i', j')
    ensures i < |packed.cu| && i' < |packed.cu| && packed.cu[i] + j < |packed.slots| && packed.cu[i'] + j' < |packed.slots|
    ensures packed.slots[packed.cu[i] + j] != packed.slots[packed.cu[i'] + j']
  {
    hide StepInv, Slot, RowCovered, Packable;
    assert ChunkAt(s, ids[i], i, packed) && ChunkAt(s, ids[i'], i', packed);
    assert RowAt(s.reqs[ids[i]], s.pool.bs, j, packed, packed.cu[i]);
    assert RowAt(s.reqs[ids[i']], s.pool.bs, j', packed, packed.cu[i']);
    SlotsDistinct(net, s, ids, i, j, i', j');
  }
}

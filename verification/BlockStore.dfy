/** The slab-backed host store: slots with generations, leases that pin them, and a reservation
    that is exactly feasible. */
module BlockStores {
  import opened Kv
  import opened BlockPool

  type Key = int
  type Contents = int

  datatype State = Free | Writing | Ready

  datatype Slot = Slot(slab: nat, offset: nat, generation: nat, key: Option<Key>, state: State, pins: nat, data: Contents)

  datatype Handle = Handle(epoch: nat, slot: nat, generation: nat)

  datatype Error = OverBudget | Overlapping | Unreleasable | NotWritable

  datatype Result<T> = Ok(value: T) | Err(error: Error)

  // ----- the invariant, field by field -----

  /** The index and the slots in use describe each other; the free list is all the rest. */
  ghost predicate Linked(slots: seq<Slot>, free: seq<nat>, order: seq<Key>, index: map<Key, nat>) {
    && Distinct(order) && (forall k :: k in order <==> k in index)
    && Distinct(free) && (forall i: nat :: i in free <==> i < |slots| && slots[i].state == Free)
    && (forall k :: k in index ==> index[k] < |slots| && slots[index[k]].state != Free && slots[index[k]].key == Some(k))
    && (forall i :: 0 <= i < |slots| && slots[i].state != Free ==>
          slots[i].key.Some? && slots[i].key.value in index && index[slots[i].key.value] == i)
    && (forall i :: 0 <= i < |slots| && slots[i].state == Free ==> slots[i].pins == 0 && slots[i].key == None)
    && (forall i :: 0 <= i < |slots| && slots[i].state == Writing ==> slots[i].pins >= 1)
  }

  /** A slot's pins are exactly its open holders, and nobody holds a stale handle. */
  ghost predicate Pinned(slots: seq<Slot>, epoch: nat, open: multiset<Handle>) {
    && (forall h :: h in open ==> Names(slots, epoch, h))
    && (forall i: nat :: i < |slots| ==> slots[i].pins == open[Handle(epoch, i, slots[i].generation)])
  }

  predicate Names(slots: seq<Slot>, epoch: nat, h: Handle) {
    && h.epoch == epoch && h.slot < |slots|
    && slots[h.slot].generation == h.generation && slots[h.slot].state != Free
  }

  /** What every handle ever issued was issued for. */
  ghost predicate Recorded(slots: seq<Slot>, epoch: nat, issued: map<Handle, Key>, written: map<Handle, Contents>) {
    && (forall h :: h in issued ==> h.epoch <= epoch)
    && (forall h :: h in issued && h.epoch == epoch ==> h.slot < |slots| && h.generation <= slots[h.slot].generation)
    && (forall h :: h in written ==> h in issued)
    && (forall i: nat :: i < |slots| && slots[i].state != Free ==>
          var h := Handle(epoch, i, slots[i].generation); h in issued && Some(issued[h]) == slots[i].key)
    && (forall i: nat :: i < |slots| && slots[i].state == Ready ==>
          var h := Handle(epoch, i, slots[i].generation); h in written && written[h] == slots[i].data)
    && (forall i: nat :: i < |slots| && slots[i].state == Writing ==> Handle(epoch, i, slots[i].generation) !in written)
  }

  // ----- steps on values -----

  function WithKey(s: Slot, k: Key): Slot {
    s.(generation := s.generation + 1, key := Some(k), state := Writing, pins := 1)
  }

  function Emptied(s: Slot): Slot {
    s.(key := None, state := Free)
  }

  lemma FreeLinked(slots: seq<Slot>, free: seq<nat>, order: seq<Key>, index: map<Key, nat>, i: nat)
    requires Linked(slots, free, order, index) && i < |slots| && slots[i].state != Free && slots[i].pins == 0
    ensures slots[i].key.Some?
    ensures var k := slots[i].key.value;
      Linked(slots[i := Emptied(slots[i])], free + [i], Without(order, k), index - {k})
  {
    var k := slots[i].key.value;
    WithoutElements(order, k);
    assert forall j: nat :: j in free + [i] <==> j in free || j == i;
  }

  lemma TakeLinked(slots: seq<Slot>, free: seq<nat>, order: seq<Key>, index: map<Key, nat>, k: Key)
    requires Linked(slots, free, order, index) && free != [] && k !in index
    ensures free[|free| - 1] < |slots|
    ensures var i := free[|free| - 1];
      Linked(slots[i := WithKey(slots[i], k)], free[..|free| - 1], order + [k], index[k := i])
  {
    var i, init := free[|free| - 1], free[..|free| - 1];
    assert i in free && free == init + [i];
    assert forall j: nat :: j in free <==> j in init || j == i;
    assert forall a :: 0 <= a < |init| ==> init[a] == free[a] && free[a] != i;
    assert forall x :: x in order + [k] <==> x in order || x == k;
  }

  lemma TakePinned(slots: seq<Slot>, epoch: nat, open: multiset<Handle>, i: nat, k: Key)
    requires Pinned(slots, epoch, open) && i < |slots| && slots[i].state == Free
    ensures var slots' := slots[i := WithKey(slots[i], k)];
      Pinned(slots', epoch, open + multiset{Handle(epoch, i, slots'[i].generation)})
  {
    var h := Handle(epoch, i, slots[i].generation + 1);
    assert h !in open;
    assert forall x :: x in open + multiset{h} <==> x in open || x == h;
  }

  lemma TakeRecorded(slots: seq<Slot>, epoch: nat, issued: map<Handle, Key>, written: map<Handle, Contents>, i: nat, k: Key)
    requires Recorded(slots, epoch, issued, written) && i < |slots| && slots[i].state == Free
    ensures var slots' := slots[i := WithKey(slots[i], k)]; var h := Handle(epoch, i, slots'[i].generation);
      h !in issued && Recorded(slots', epoch, issued[h := k], written)
  {
  }

  lemma FreePinned(slots: seq<Slot>, epoch: nat, open: multiset<Handle>, i: nat)
    requires Pinned(slots, epoch, open) && i < |slots| && slots[i].pins == 0
    ensures Pinned(slots[i := Emptied(slots[i])], epoch, open)
  {
    assert Handle(epoch, i, slots[i].generation) !in open;
  }

  lemma PinPinned(slots: seq<Slot>, epoch: nat, open: multiset<Handle>, i: nat)
    requires Pinned(slots, epoch, open) && i < |slots| && slots[i].state != Free
    ensures Pinned(slots[i := slots[i].(pins := slots[i].pins + 1)], epoch, open + multiset{Handle(epoch, i, slots[i].generation)})
  {
    var h := Handle(epoch, i, slots[i].generation);
    assert forall x :: x in open + multiset{h} <==> x in open || x == h;
  }

  lemma UnpinPinned(slots: seq<Slot>, epoch: nat, open: multiset<Handle>, h: Handle)
    requires Pinned(slots, epoch, open) && h in open
    ensures h.slot < |slots| && slots[h.slot].pins >= 1
    ensures Pinned(slots[h.slot := slots[h.slot].(pins := slots[h.slot].pins - 1)], epoch, open - multiset{h})
  {
    assert Names(slots, epoch, h) && h == Handle(epoch, h.slot, slots[h.slot].generation);
    assert forall x :: x in open - multiset{h} ==> x in open;
  }

  function Fresh(slab: nat, count: nat): seq<Slot> {
    seq(count, j requires 0 <= j => Slot(slab, j, 0, None, Free, 0, 0))
  }

  function Indices(from: nat, count: nat): seq<nat> {
    seq(count, j requires 0 <= j => from + j)
  }

  lemma GrowLinked(slots: seq<Slot>, free: seq<nat>, order: seq<Key>, index: map<Key, nat>, slab: nat, count: nat)
    requires Linked(slots, free, order, index)
    ensures Linked(slots + Fresh(slab, count), free + Indices(|slots|, count), order, index)
  {
    var more := Indices(|slots|, count);
    var slots' := slots + Fresh(slab, count);
    forall i: nat
      ensures i in free + more <==> i < |slots'| && slots'[i].state == Free
    {
      if |slots| <= i < |slots'| {
        assert more[i - |slots|] == i;
      }
    }
    forall a, b | 0 <= a < b < |free + more|
      ensures (free + more)[a] != (free + more)[b]
    {
      assert a < |free| ==> (free + more)[a] in free;
    }
  }

  lemma GrowRest(slots: seq<Slot>, epoch: nat, open: multiset<Handle>, issued: map<Handle, Key>, written: map<Handle, Contents>, slab: nat, count: nat)
    requires Pinned(slots, epoch, open) && Recorded(slots, epoch, issued, written)
    ensures Pinned(slots + Fresh(slab, count), epoch, open) && Recorded(slots + Fresh(slab, count), epoch, issued, written)
  {
    forall i: nat | |slots| <= i < |slots| + count
      ensures open[Handle(epoch, i, 0)] == 0
    {
      assert Handle(epoch, i, 0) !in open;
    }
  }

  ghost predicate Sound(slots: seq<Slot>, free: seq<nat>, order: seq<Key>, index: map<Key, nat>,
                        epoch: nat, open: multiset<Handle>, issued: map<Handle, Key>, written: map<Handle, Contents>) {
    Linked(slots, free, order, index) && Pinned(slots, epoch, open) && Recorded(slots, epoch, issued, written)
  }

  lemma SoundAt(slots: seq<Slot>, free: seq<nat>, order: seq<Key>, index: map<Key, nat>,
                epoch: nat, open: multiset<Handle>, issued: map<Handle, Key>, written: map<Handle, Contents>)
    requires Sound(slots, free, order, index, epoch, open, issued, written)
    ensures Distinct(order) && Distinct(free) && forall k :: k in order <==> k in index
    ensures forall k :: k in index ==> index[k] < |slots| && slots[index[k]].state != Free && slots[index[k]].key == Some(k)
    ensures forall i: nat :: i in free ==> i < |slots| && slots[i].state == Free
  {
  }

  lemma FreeStep(slots: seq<Slot>, free: seq<nat>, order: seq<Key>, index: map<Key, nat>,
                 epoch: nat, open: multiset<Handle>, issued: map<Handle, Key>, written: map<Handle, Contents>, i: nat)
    requires Sound(slots, free, order, index, epoch, open, issued, written)
    requires i < |slots| && slots[i].state != Free && slots[i].pins == 0
    ensures slots[i].key.Some?
    ensures var k := slots[i].key.value;
      Sound(slots[i := Emptied(slots[i])], free + [i], Without(order, k), index - {k}, epoch, open, issued, written)
  {
    FreeLinked(slots, free, order, index, i);
    FreePinned(slots, epoch, open, i);
  }

  lemma PinStep(slots: seq<Slot>, free: seq<nat>, order: seq<Key>, index: map<Key, nat>,
                epoch: nat, open: multiset<Handle>, issued: map<Handle, Key>, written: map<Handle, Contents>, i: nat)
    requires Sound(slots, free, order, index, epoch, open, issued, written) && i < |slots| && slots[i].state != Free
    ensures Sound(slots[i := slots[i].(pins := slots[i].pins + 1)], free, order, index,
                  epoch, open + multiset{Handle(epoch, i, slots[i].generation)}, issued, written)
  {
    PinPinned(slots, epoch, open, i);
  }

  lemma UnpinKept(slots: seq<Slot>, free: seq<nat>, order: seq<Key>, index: map<Key, nat>,
                   epoch: nat, issued: map<Handle, Key>, written: map<Handle, Contents>, i: nat)
    requires Linked(slots, free, order, index) && Recorded(slots, epoch, issued, written)
    requires i < |slots| && slots[i].state != Free && slots[i].pins >= (if slots[i].state == Ready then 1 else 2)
    ensures var slots' := slots[i := slots[i].(pins := slots[i].pins - 1)];
      Linked(slots', free, order, index) && Recorded(slots', epoch, issued, written)
  {
  }

  lemma EmptiedRecorded(slots: seq<Slot>, epoch: nat, issued: map<Handle, Key>, written: map<Handle, Contents>, i: nat, s: Slot)
    requires Recorded(slots, epoch, issued, written) && i < |slots| && s == slots[i].(pins := s.pins)
    ensures Recorded(slots[i := Emptied(s)], epoch, issued, written)
  {
  }

  lemma HolderAt(slots: seq<Slot>, free: seq<nat>, order: seq<Key>, index: map<Key, nat>, epoch: nat, open: multiset<Handle>, h: Handle)
    requires Linked(slots, free, order, index) && Pinned(slots, epoch, open) && h in open
    ensures h.slot < |slots| && slots[h.slot].pins >= 1 && Names(slots, epoch, h) && slots[h.slot].key.Some?
  {
    assert h == Handle(epoch, h.slot, slots[h.slot].generation);
  }

  /** Being written, and held by somebody else as well. */
  predicate Contended(slots: seq<Slot>, h: Handle) {
    h.slot < |slots| && slots[h.slot].state == Writing && slots[h.slot].pins > 1
  }

  /** Releasing one pin; a block that was never committed goes with its only holder. */
  lemma UnpinStep(slots: seq<Slot>, free: seq<nat>, order: seq<Key>, index: map<Key, nat>,
                  epoch: nat, open: multiset<Handle>, issued: map<Handle, Key>, written: map<Handle, Contents>, h: Handle)
    requires Sound(slots, free, order, index, epoch, open, issued, written) && h in open
    ensures h.slot < |slots| && slots[h.slot].pins >= 1 && Names(slots, epoch, h) && slots[h.slot].key.Some?
    ensures var s := slots[h.slot]; var s' := s.(pins := s.pins - 1);
      if s.state == Ready || Contended(slots, h) then
        Sound(slots[h.slot := s'], free, order, index, epoch, open - multiset{h}, issued, written)
      else
        s'.pins == 0
        && Sound(slots[h.slot := Emptied(s')], free + [h.slot], Without(order, s.key.value), index - {s.key.value},
                 epoch, open - multiset{h}, issued, written)
  {
    hide Linked, Pinned, Recorded;
    HolderAt(slots, free, order, index, epoch, open, h);
    UnpinPinned(slots, epoch, open, h);
    var s := slots[h.slot];
    var mid := slots[h.slot := s.(pins := s.pins - 1)];
    if s.state == Ready || Contended(slots, h) {
      UnpinKept(slots, free, order, index, epoch, issued, written, h.slot);
    } else {
      UnpinWriting(slots, free, order, index, h.slot);
      FreePinned(mid, epoch, open - multiset{h}, h.slot);
      EmptiedRecorded(slots, epoch, issued, written, h.slot, mid[h.slot]);
      assert mid[h.slot := Emptied(mid[h.slot])] == slots[h.slot := Emptied(mid[h.slot])];
    }
  }

  lemma UnpinWriting(slots: seq<Slot>, free: seq<nat>, order: seq<Key>, index: map<Key, nat>, i: nat)
    requires Linked(slots, free, order, index) && i < |slots| && slots[i].state == Writing && slots[i].pins == 1
    ensures slots[i].key.Some?
    ensures var s' := slots[i].(pins := 0);
      Linked(slots[i := Emptied(s')], free + [i], Without(order, slots[i].key.value), index - {slots[i].key.value})
  {
    var k := slots[i].key.value;
    WithoutElements(order, k);
    assert forall j: nat :: j in free + [i] <==> j in free || j == i;
  }

  // ----- giving pins back -----

  /** How many of its pins a lease gives back when it closes: all of them, or those up to the
      first on a block that somebody else is still holding open for writing. */
  function GivenBack(slots: seq<Slot>, held: seq<Handle>): (n: nat)
    ensures n <= |held|
  {
    if held == [] then 0 else if Contended(slots, held[0]) then 1 else 1 + GivenBack(slots, held[1..])
  }

  lemma {:induction false} GivenBackTo(slots: seq<Slot>, held: seq<Handle>, j: nat)
    requires j < |held| && Contended(slots, held[j]) && forall m :: 0 <= m < j ==> !Contended(slots, held[m])
    ensures GivenBack(slots, held) == j + 1
  {
    if j > 0 {
      GivenBackTo(slots, held[1..], j - 1);
    }
  }

  lemma {:induction false} GivenBackAll(slots: seq<Slot>, held: seq<Handle>)
    requires forall m :: 0 <= m < |held| ==> !Contended(slots, held[m])
    ensures GivenBack(slots, held) == |held|
  {
    if held != [] {
      assert forall m :: 0 <= m < |held[1..]| ==> held[1..][m] == held[m + 1];
      GivenBackAll(slots, held[1..]);
    }
  }

  /** The first `j` pins given back, none of them on a contended block. */
  ghost predicate GivingBack(slots0: seq<Slot>, open0: multiset<Handle>, held: seq<Handle>, j: nat, slots: seq<Slot>, open: multiset<Handle>) {
    && j <= |held| && |slots| == |slots0| && open == open0 - multiset(held[..j])
    && (forall m :: 0 <= m < |held| ==> held[m].slot < |slots|)
    && (forall m :: j <= m < |held| ==> slots[held[m].slot] == slots0[held[m].slot])
    && forall m :: 0 <= m < j ==> !Contended(slots0, held[m])
  }

  lemma GivingBackStart(slots: seq<Slot>, open: multiset<Handle>, held: seq<Handle>)
    requires forall m :: 0 <= m < |held| ==> held[m].slot < |slots|
    ensures GivingBack(slots, open, held, 0, slots, open)
  {
    assert held[..0] == [] && open - multiset([]) == open;
  }

  lemma GivingBackNext(slots0: seq<Slot>, open0: multiset<Handle>, held: seq<Handle>, j: nat, slots: seq<Slot>, open: multiset<Handle>)
    requires GivingBack(slots0, open0, held, j, slots, open) && j < |held| && multiset(held) <= open0
    ensures held[j] in open && Contended(slots, held[j]) == Contended(slots0, held[j])
  {
    StillHeld(open0, held, j);
  }

  lemma GivingBackStep(slots0: seq<Slot>, open0: multiset<Handle>, held: seq<Handle>, j: nat, slots: seq<Slot>, open: multiset<Handle>,
                       slots': seq<Slot>, open': multiset<Handle>)
    requires GivingBack(slots0, open0, held, j, slots, open) && j < |held| && multiset(held) <= open0
    requires open' == open - multiset{held[j]} && |slots'| == |slots| && forall i: nat :: i < |slots| && i != held[j].slot ==> slots'[i] == slots[i]
    requires !Contended(slots0, held[j]) && forall j, m :: 0 <= j < m < |held| ==> held[j].slot != held[m].slot
    ensures GivingBack(slots0, open0, held, j + 1, slots', open')
  {
    hide Contended;
    StillHeld(open0, held, j);
  }

  lemma GivingBackStops(slots0: seq<Slot>, open0: multiset<Handle>, held: seq<Handle>, j: nat, slots: seq<Slot>, open: multiset<Handle>)
    requires GivingBack(slots0, open0, held, j, slots, open) && j < |held| && multiset(held) <= open0 && Contended(slots, held[j])
    ensures GivenBack(slots0, held) == j + 1 && open - multiset{held[j]} == open0 - multiset(held[..j + 1])
    ensures held[j] in held && Contended(slots0, held[j])
  {
    StillHeld(open0, held, j);
    GivenBackTo(slots0, held, j);
  }

  lemma GivingBackEnds(slots0: seq<Slot>, open0: multiset<Handle>, held: seq<Handle>, slots: seq<Slot>, open: multiset<Handle>)
    requires GivingBack(slots0, open0, held, |held|, slots, open)
    ensures GivenBack(slots0, held) == |held| && forall h :: h in held ==> !Contended(slots0, h)
    ensures open == open0 - multiset(held[..|held|])
  {
    hide Contended;
    GivenBackAll(slots0, held);
  }

  /** Different open handles name different slots. */
  lemma SlotsApart(slots: seq<Slot>, free: seq<nat>, order: seq<Key>, index: map<Key, nat>,
                   epoch: nat, open: multiset<Handle>, issued: map<Handle, Key>, written: map<Handle, Contents>, held: seq<Handle>)
    requires Sound(slots, free, order, index, epoch, open, issued, written) && multiset(held) <= open && Distinct(held)
    ensures forall j :: 0 <= j < |held| ==> held[j].slot < |slots|
    ensures forall j, m :: 0 <= j < m < |held| ==> held[j].slot != held[m].slot
  {
    hide Linked, Recorded;
    forall j | 0 <= j < |held|
      ensures Names(slots, epoch, held[j])
    {
      assert held[j] in multiset(held);
    }
  }

  lemma TakeStep(slots: seq<Slot>, free: seq<nat>, order: seq<Key>, index: map<Key, nat>,
                 epoch: nat, open: multiset<Handle>, issued: map<Handle, Key>, written: map<Handle, Contents>, k: Key)
    requires Sound(slots, free, order, index, epoch, open, issued, written) && k !in index && free != []
    ensures free[|free| - 1] < |slots|
    ensures var i := free[|free| - 1]; var h := Handle(epoch, i, slots[i].generation + 1);
      && slots[i].state == Free && h !in issued
      && Sound(slots[i := WithKey(slots[i], k)], free[..|free| - 1], order + [k], index[k := i],
               epoch, open + multiset{h}, issued[h := k], written)
  {
    hide Linked, Pinned, Recorded;
    var i := free[|free| - 1];
    TakeLinked(slots, free, order, index, k);
    LinkedFree(slots, free, order, index);
    TakePinned(slots, epoch, open, i, k);
    TakeRecorded(slots, epoch, issued, written, i, k);
  }

  lemma LinkedFree(slots: seq<Slot>, free: seq<nat>, order: seq<Key>, index: map<Key, nat>)
    requires Linked(slots, free, order, index)
    ensures free != [] ==> free[|free| - 1] < |slots| && slots[free[|free| - 1]].state == Free
  {
    assert free != [] ==> free[|free| - 1] in free;
  }

  lemma CommitStep(slots: seq<Slot>, free: seq<nat>, order: seq<Key>, index: map<Key, nat>,
                   epoch: nat, open: multiset<Handle>, issued: map<Handle, Key>, written: map<Handle, Contents>, h: Handle)
    requires Sound(slots, free, order, index, epoch, open, issued, written)
    requires Names(slots, epoch, h) && slots[h.slot].state == Writing
    ensures Sound(slots[h.slot := slots[h.slot].(state := Ready)], free, order, index,
                  epoch, open, issued, written[h := slots[h.slot].data])
    ensures h in issued && h !in written
  {
    assert h == Handle(epoch, h.slot, slots[h.slot].generation);
  }

  lemma FillStep(slots: seq<Slot>, free: seq<nat>, order: seq<Key>, index: map<Key, nat>,
                 epoch: nat, open: multiset<Handle>, issued: map<Handle, Key>, written: map<Handle, Contents>, h: Handle, data: Contents)
    requires Sound(slots, free, order, index, epoch, open, issued, written)
    requires Names(slots, epoch, h) && slots[h.slot].state == Writing
    ensures Sound(slots[h.slot := slots[h.slot].(data := data)], free, order, index, epoch, open, issued, written)
  {
  }

  lemma GrowStep(slots: seq<Slot>, free: seq<nat>, order: seq<Key>, index: map<Key, nat>,
                 epoch: nat, open: multiset<Handle>, issued: map<Handle, Key>, written: map<Handle, Contents>, slab: nat, count: nat)
    requires Sound(slots, free, order, index, epoch, open, issued, written)
    ensures Sound(slots + Fresh(slab, count), free + Indices(|slots|, count), order, index, epoch, open, issued, written)
  {
    hide Linked, Pinned, Recorded;
    GrowLinked(slots, free, order, index, slab, count);
    GrowRest(slots, epoch, open, issued, written, slab, count);
  }

  /** Only the set of free slots matters. */
  lemma SortStep(slots: seq<Slot>, free: seq<nat>, order: seq<Key>, index: map<Key, nat>,
                 epoch: nat, open: multiset<Handle>, issued: map<Handle, Key>, written: map<Handle, Contents>, free': seq<nat>)
    requires Sound(slots, free, order, index, epoch, open, issued, written)
    requires Distinct(free') && forall i :: i in free' <==> i in free
    ensures Sound(slots, free', order, index, epoch, open, issued, written)
  {
  }

  /** Reading a block makes it the most recently used. */
  lemma UseStep(slots: seq<Slot>, free: seq<nat>, order: seq<Key>, index: map<Key, nat>,
                epoch: nat, open: multiset<Handle>, issued: map<Handle, Key>, written: map<Handle, Contents>, k: Key)
    requires Sound(slots, free, order, index, epoch, open, issued, written) && k in index
    ensures Sound(slots, free, Without(order, k) + [k], index, epoch, open, issued, written)
  {
    WithoutElements(order, k);
    assert forall x :: x in Without(order, k) + [k] <==> x in Without(order, k) || x == k;
  }

  // ----- choosing victims -----

  /** Keys that eviction may take, least recently used first. */
  function Evictable(order: seq<Key>, slots: seq<Slot>, index: map<Key, nat>, protected: set<Key>): seq<Key> {
    if order == [] then []
    else
      (if order[0] !in protected && order[0] in index && index[order[0]] < |slots| && slots[index[order[0]]].pins == 0
       then [order[0]] else []) + Evictable(order[1..], slots, index, protected)
  }

  function Remove(order: seq<Key>, victims: seq<Key>): seq<Key>
    decreases |victims|
  {
    if victims == [] then order else Remove(Without(order, victims[0]), victims[1..])
  }

  /** How many slots the pre-check counts as reclaimable. */
  function Reclaimable(slots: seq<Slot>, protected: set<Key>): nat {
    if slots == [] then 0
    else
      var s := slots[|slots| - 1];
      Reclaimable(slots[..|slots| - 1], protected)
      + (if s.pins == 0 && s.state == Ready && s.key.Some? && s.key.value !in protected then 1 else 0)
  }

  predicate CanGo(s: Slot, protected: set<Key>) {
    s.pins == 0 && s.state == Ready && s.key.Some? && s.key.value !in protected
  }

  lemma {:induction false} ReclaimableIsSet(slots: seq<Slot>, protected: set<Key>)
    ensures Reclaimable(slots, protected) == |set i | 0 <= i < |slots| && CanGo(slots[i], protected)|
  {
    if slots != [] {
      ReclaimableIsSet(slots[..|slots| - 1], protected);
      OneMoreSlot(slots, protected);
    }
  }

  lemma OneMoreSlot(slots: seq<Slot>, protected: set<Key>)
    requires slots != []
    ensures var n := |slots| - 1;
      |set i | 0 <= i < |slots| && CanGo(slots[i], protected)|
      == |set i | 0 <= i < |slots[..n]| && CanGo(slots[..n][i], protected)| + if CanGo(slots[n], protected) then 1 else 0
  {
    hide CanGo;
    var n := |slots| - 1;
    var a := set i | 0 <= i < |slots[..n]| && CanGo(slots[..n][i], protected);
    var b := set i | 0 <= i < |slots| && CanGo(slots[i], protected);
    assert n !in a && b == if CanGo(slots[n], protected) then a + {n} else a;
  }

  lemma {:induction false} EvictableMembers(order: seq<Key>, slots: seq<Slot>, index: map<Key, nat>, protected: set<Key>)
    requires Distinct(order)
    ensures Distinct(Evictable(order, slots, index, protected))
    ensures forall k :: k in Evictable(order, slots, index, protected) <==>
      k in order && k !in protected && k in index && index[k] < |slots| && slots[index[k]].pins == 0
  {
    if order != [] {
      EvictableMembers(order[1..], slots, index, protected);
      assert forall k :: k in order <==> k == order[0] || k in order[1..];
      assert order[0] !in order[1..];
    }
  }

  lemma {:induction false} ImageSize(keys: seq<Key>, index: map<Key, nat>)
    requires Distinct(keys) && forall k :: k in keys ==> k in index
    requires forall k, k' :: k in keys && k' in keys && k != k' ==> index[k] != index[k']
    ensures |set k | k in keys && k in index :: index[k]| == |keys|
  {
    if keys != [] {
      var first, rest := keys[0], keys[1..];
      assert first in keys;
      assert first !in rest && forall k :: k in keys <==> k == first || k in rest;
      ImageSize(rest, index);
      var a := set k | k in rest && k in index :: index[k];
      var b := set k | k in keys && k in index :: index[k];
      assert b == a + {index[first]};
      assert index[first] !in a;
    }
  }

  /** The pre-check counts exactly the keys that eviction can take. */
  lemma ReclaimableIsEvictable(slots: seq<Slot>, free: seq<nat>, order: seq<Key>, index: map<Key, nat>, protected: set<Key>)
    requires Linked(slots, free, order, index)
    ensures Reclaimable(slots, protected) == |Evictable(order, slots, index, protected)|
  {
    var keys := Evictable(order, slots, index, protected);
    EvictableMembers(order, slots, index, protected);
    ReclaimableIsSet(slots, protected);
    ImageSize(keys, index);
    var a := set k | k in keys && k in index :: index[k];
    var b := set i | 0 <= i < |slots| && CanGo(slots[i], protected);
    forall i | i in b
      ensures i in a
    {
      var k := slots[i].key.value;
      assert k in index && index[k] == i && k in order;
      assert k in keys;
    }
    forall i | i in a
      ensures i in b
    {
      var k :| k in keys && k in index && index[k] == i;
      assert slots[i].key == Some(k) && slots[i].state == Ready;
    }
    assert a == b;
  }

  // ----- the byte budget, in blocks -----

  /** Blocks that may still be allocated. */
  function Growth(maxBytes: nat, blockBytes: nat, used: nat): nat
    requires blockBytes >= 1
  {
    if used * blockBytes <= maxBytes then (maxBytes - used * blockBytes) / blockBytes else 0
  }

  lemma GrowthDrops(maxBytes: nat, blockBytes: nat, used: nat, count: nat)
    requires blockBytes >= 1 && used * blockBytes <= maxBytes && count <= Growth(maxBytes, blockBytes, used)
    ensures (used + count) * blockBytes <= maxBytes
    ensures Growth(maxBytes, blockBytes, used + count) == Growth(maxBytes, blockBytes, used) - count
  {
    var left := maxBytes - used * blockBytes;
    var g := left / blockBytes;
    PositionInTable(left, 0, blockBytes);
    MulOrder(count, g, blockBytes);
    assert (used + count) * blockBytes == used * blockBytes + count * blockBytes;
    assert left - count * blockBytes == (g - count) * blockBytes + left % blockBytes;
    DivModUnique(left - count * blockBytes, g - count, left % blockBytes, blockBytes);
  }

  // ----- small sequence helpers -----

  function Dedup(keys: seq<Key>): seq<Key> {
    if keys == [] then []
    else
      var init := Dedup(keys[..|keys| - 1]);
      if keys[|keys| - 1] in init then init else init + [keys[|keys| - 1]]
  }

  lemma {:induction false} DedupMembers(keys: seq<Key>)
    ensures Distinct(Dedup(keys)) && forall k :: k in Dedup(keys) <==> k in keys
  {
    if keys != [] {
      DedupMembers(keys[..|keys| - 1]);
      assert keys == keys[..|keys| - 1] + [keys[|keys| - 1]];
    }
  }

  /** The keys that are, or are not, already stored. */
  function Stored(keys: seq<Key>, index: map<Key, nat>, yes: bool): seq<Key> {
    if keys == [] then []
    else (if (keys[0] in index) == yes then [keys[0]] else []) + Stored(keys[1..], index, yes)
  }

  lemma {:induction false} StoredMembers(keys: seq<Key>, index: map<Key, nat>, yes: bool)
    requires Distinct(keys)
    ensures Distinct(Stored(keys, index, yes))
    ensures forall k :: k in Stored(keys, index, yes) <==> k in keys && (k in index) == yes
  {
    if keys != [] {
      StoredMembers(keys[1..], index, yes);
      assert forall k :: k in keys <==> k == keys[0] || k in keys[1..];
      assert keys[0] !in keys[1..];
    }
  }

  function Insert(x: nat, sorted: seq<nat>): seq<nat> {
    if sorted == [] || x >= sorted[0] then [x] + sorted else [sorted[0]] + Insert(x, sorted[1..])
  }

  function SortDown(s: seq<nat>): seq<nat> {
    if s == [] then [] else Insert(s[0], SortDown(s[1..]))
  }

  ghost predicate Descending(s: seq<nat>) {
    forall i, j :: 0 <= i < j < |s| ==> s[i] > s[j]
  }

  lemma DescendingCons(x: nat, s: seq<nat>)
    requires Descending(s) && forall y :: y in s ==> y < x
    ensures Descending([x] + s)
  {
    assert forall j :: 0 <= j < |s| ==> s[j] in s;
  }

  lemma {:induction false} InsertMembers(x: nat, sorted: seq<nat>)
    requires Descending(sorted) && x !in sorted
    ensures Descending(Insert(x, sorted)) && |Insert(x, sorted)| == |sorted| + 1
    ensures forall y :: y in Insert(x, sorted) <==> y == x || y in sorted
  {
    if sorted == [] || x >= sorted[0] {
      assert forall y :: y in sorted ==> y <= sorted[0];
      assert sorted != [] ==> sorted[0] in sorted;
      DescendingCons(x, sorted);
    } else {
      var rest := sorted[1..];
      assert forall y :: y in sorted <==> y == sorted[0] || y in rest;
      InsertMembers(x, rest);
      DescendingCons(sorted[0], Insert(x, rest));
    }
  }

  lemma {:induction false} SortDownMembers(s: seq<nat>)
    requires Distinct(s)
    ensures Descending(SortDown(s)) && |SortDown(s)| == |s| && forall y :: y in SortDown(s) <==> y in s
  {
    if s != [] {
      SortDownMembers(s[1..]);
      assert s[0] !in s[1..] && forall y :: y in s <==> y == s[0] || y in s[1..];
      InsertMembers(s[0], SortDown(s[1..]));
    }
  }

  // ----- what each phase of a reservation changes -----

  /** The slots after the victims are gone. */
  ghost predicate EvictedFrom(slots: seq<Slot>, index: map<Key, nat>, victims: seq<Key>, slots': seq<Slot>) {
    && |slots'| == |slots| && (forall k :: k in victims ==> k in index && index[k] < |slots|)
    && (forall k :: k in victims ==> slots'[index[k]] == Emptied(slots[index[k]]))
    && (forall i: nat :: i < |slots| && !IsSlotOf(index, victims, i) ==> slots'[i] == slots[i])
  }

  ghost predicate IsSlotOf(index: map<Key, nat>, keys: seq<Key>, i: nat) {
    exists k :: k in keys && k in index && index[k] == i
  }

  lemma IsSlotOfMore(index: map<Key, nat>, keys: seq<Key>, k: Key, i: nat)
    ensures IsSlotOf(index, keys + [k], i) <==> IsSlotOf(index, keys, i) || (k in index && index[k] == i)
  {
    assert forall x :: x in keys + [k] <==> x in keys || x == k;
    if k in index && index[k] == i {
      assert k in keys + [k];
    }
    if IsSlotOf(index, keys, i) {
      var x :| x in keys && x in index && index[x] == i;
      assert x in keys + [k];
    }
  }

  lemma EvictedMore(slots: seq<Slot>, index: map<Key, nat>, victims: seq<Key>, slots': seq<Slot>, k: Key)
    requires EvictedFrom(slots, index, victims, slots') && k in index && index[k] < |slots| && k !in victims
    requires forall x, y :: x in index && y in index && x != y ==> index[x] != index[y]
    ensures slots'[index[k]] == slots[index[k]]
    ensures EvictedFrom(slots, index, victims + [k], slots'[index[k] := Emptied(slots'[index[k]])])
  {
    assert !IsSlotOf(index, victims, index[k]);
    var all := victims + [k];
    assert forall x :: x in all <==> x in victims || x == k;
    forall i: nat | i < |slots| && !IsSlotOf(index, all, i)
      ensures i != index[k] && !IsSlotOf(index, victims, i)
    {
      IsSlotOfMore(index, victims, k, i);
    }
  }

  lemma {:induction false} EvictableConcat(a: seq<Key>, k: Key, slots: seq<Slot>, index: map<Key, nat>, protected: set<Key>)
    ensures Evictable(a + [k], slots, index, protected) == Evictable(a, slots, index, protected) + Evictable([k], slots, index, protected)
  {
    if a == [] {
      assert a + [k] == [k];
    } else {
      assert (a + [k])[1..] == a[1..] + [k];
      EvictableConcat(a[1..], k, slots, index, protected);
    }
  }

  lemma {:induction false} EvictablePrefix(order: seq<Key>, n: nat, slots: seq<Slot>, index: map<Key, nat>, protected: set<Key>)
    requires n <= |order|
    ensures Evictable(order[..n], slots, index, protected) <= Evictable(order, slots, index, protected)
    decreases |order| - n
  {
    if n < |order| {
      EvictablePrefix(order, n + 1, slots, index, protected);
      assert order[..n + 1] == order[..n] + [order[n]];
      EvictableConcat(order[..n], order[n], slots, index, protected);
    } else {
      assert order[..n] == order;
    }
  }

  lemma {:induction false} RemoveMore(order: seq<Key>, victims: seq<Key>, k: Key)
    ensures Remove(order, victims + [k]) == Without(Remove(order, victims), k)
    decreases |victims|
  {
    if victims == [] {
      assert victims + [k] == [k] && [k][1..] == [];
    } else {
      assert (victims + [k])[1..] == victims[1..] + [k];
      RemoveMore(Without(order, victims[0]), victims[1..], k);
    }
  }

  function Clamp(n: int, most: nat): nat {
    if n <= 0 then 0 else if n <= most then n else most
  }

  /** What an eviction phase leaves: exactly the first `count` evictable keys are gone. */
  ghost predicate Evicts(slots: seq<Slot>, order: seq<Key>, index: map<Key, nat>, victims: seq<Key>,
                         slots': seq<Slot>, order': seq<Key>, index': map<Key, nat>) {
    && EvictedFrom(slots, index, victims, slots')
    && order' == Remove(order, victims) && index' == index - (set k | k in victims)
  }

  lemma EvictsMore(slots: seq<Slot>, order: seq<Key>, index: map<Key, nat>, victims: seq<Key>,
                   slots': seq<Slot>, order': seq<Key>, index': map<Key, nat>, k: Key)
    requires Evicts(slots, order, index, victims, slots', order', index')
    requires k in index && index[k] < |slots| && k !in victims
    requires forall x, y :: x in index && y in index && x != y ==> index[x] != index[y]
    ensures k in index' && index'[k] == index[k] && slots'[index[k]] == slots[index[k]]
    ensures Evicts(slots, order, index, victims + [k], slots'[index[k] := Emptied(slots'[index[k]])], Without(order', k), index' - {k})
  {
    hide EvictedFrom;
    EvictedMore(slots, index, victims, slots', k);
    RemoveMore(order, victims, k);
    assert (set x | x in victims + [k]) == (set x | x in victims) + {k};
  }

  lemma SoundInjective(slots: seq<Slot>, free: seq<nat>, order: seq<Key>, index: map<Key, nat>,
                       epoch: nat, open: multiset<Handle>, issued: map<Handle, Key>, written: map<Handle, Contents>)
    requires Sound(slots, free, order, index, epoch, open, issued, written)
    ensures forall x, y :: x in index && y in index && x != y ==> index[x] != index[y]
  {
    hide Pinned, Recorded;
  }

  /** One more pin on each of the given keys, and nothing else. */
  ghost predicate PinsEach(slots: seq<Slot>, index: map<Key, nat>, keys: seq<Key>, slots': seq<Slot>) {
    && |slots'| == |slots| && (forall k :: k in keys ==> k in index && index[k] < |slots|)
    && (forall k :: k in keys ==> slots'[index[k]] == slots[index[k]].(pins := slots[index[k]].pins + 1))
    && (forall i: nat :: i < |slots| && !IsSlotOf(index, keys, i) ==> slots'[i] == slots[i])
  }

  lemma PinsMore(slots: seq<Slot>, index: map<Key, nat>, keys: seq<Key>, slots': seq<Slot>, k: Key)
    requires PinsEach(slots, index, keys, slots') && k in index && index[k] < |slots| && k !in keys
    requires forall x, y :: x in index && y in index && x != y ==> index[x] != index[y]
    ensures index[k] < |slots'| && slots'[index[k]] == slots[index[k]]
    ensures PinsEach(slots, index, keys + [k], slots'[index[k] := slots'[index[k]].(pins := slots'[index[k]].pins + 1)])
  {
    assert !IsSlotOf(index, keys, index[k]);
    var all := keys + [k];
    assert forall x :: x in all <==> x in keys || x == k;
    forall i: nat | i < |slots| && !IsSlotOf(index, all, i)
      ensures i != index[k] && !IsSlotOf(index, keys, i)
    {
      IsSlotOfMore(index, keys, k, i);
    }
  }

  /** Pinning protected keys changes nobody else's chances. */
  lemma {:induction false} EvictableAfterPins(order: seq<Key>, slots: seq<Slot>, index: map<Key, nat>, protected: set<Key>,
                                              keys: seq<Key>, slots': seq<Slot>)
    requires PinsEach(slots, index, keys, slots') && forall k :: k in keys ==> k in protected
    requires forall x, y :: x in index && y in index && x != y ==> index[x] != index[y]
    ensures Evictable(order, slots', index, protected) == Evictable(order, slots, index, protected)
  {
    hide PinsEach;
    if order != [] {
      EvictableAfterPins(order[1..], slots, index, protected, keys, slots');
      UntouchedByPins(slots, index, protected, keys, slots', order[0]);
    }
  }

  lemma UntouchedByPins(slots: seq<Slot>, index: map<Key, nat>, protected: set<Key>, keys: seq<Key>, slots': seq<Slot>, k: Key)
    requires PinsEach(slots, index, keys, slots') && forall k :: k in keys ==> k in protected
    requires forall x, y :: x in index && y in index && x != y ==> index[x] != index[y]
    ensures |slots'| == |slots|
    ensures k in index && index[k] < |slots| && k !in protected ==> slots'[index[k]] == slots[index[k]]
  {
    if k in index && index[k] < |slots| && k !in protected {
      assert !IsSlotOf(index, keys, index[k]);
    }
  }

  /** `h` names the slot that now holds `k`. */
  ghost predicate HandleFor(slots: seq<Slot>, index: map<Key, nat>, epoch: nat, k: Key, h: Handle) {
    && k in index && index[k] == h.slot && Names(slots, epoch, h)
  }

  ghost predicate HandlesFor(slots: seq<Slot>, index: map<Key, nat>, epoch: nat, keys: seq<Key>, held: seq<Handle>) {
    |held| == |keys| && forall j :: 0 <= j < |keys| ==> HandleFor(slots, index, epoch, keys[j], held[j])
  }

  lemma HandlesMore(slots: seq<Slot>, index: map<Key, nat>, epoch: nat, keys: seq<Key>, held: seq<Handle>, k: Key, h: Handle)
    requires HandlesFor(slots, index, epoch, keys, held) && HandleFor(slots, index, epoch, k, h)
    ensures HandlesFor(slots, index, epoch, keys + [k], held + [h])
  {
  }

  /** Pins do not change what a handle names. */
  lemma HandlesAfterPin(slots: seq<Slot>, index: map<Key, nat>, epoch: nat, keys: seq<Key>, held: seq<Handle>, i: nat, pins: nat)
    requires HandlesFor(slots, index, epoch, keys, held) && i < |slots|
    ensures HandlesFor(slots[i := slots[i].(pins := pins)], index, epoch, keys, held)
  {
  }

  /** What has been taken so far: ascending slots for the given keys, everything else kept. */
  ghost predicate Took(slots: seq<Slot>, index: map<Key, nat>, slots': seq<Slot>, index': map<Key, nat>, epoch: nat,
                       keys: seq<Key>, held: seq<Handle>, free: seq<nat>) {
    && |slots'| == |slots| && Descending(free) && HandlesFor(slots', index', epoch, keys, held)
    && (forall j, m :: 0 <= j < m < |held| ==> held[j].slot < held[m].slot)
    && (forall j, f :: 0 <= j < |held| && f in free ==> held[j].slot < f)
    && (forall k :: k in index ==> KeptSlot(slots, index, slots', index', k))
    && (forall k :: k in index' <==> k in index || k in keys)
  }

  ghost predicate KeptSlot(slots: seq<Slot>, index: map<Key, nat>, slots': seq<Slot>, index': map<Key, nat>, k: Key)
    requires k in index
  {
    k in index' && index'[k] == index[k] && index[k] < |slots'| && index[k] < |slots| && slots'[index[k]] == slots[index[k]]
  }

  lemma TookMore(slots: seq<Slot>, index: map<Key, nat>, slots': seq<Slot>, index': map<Key, nat>, epoch: nat,
                 keys: seq<Key>, held: seq<Handle>, free: seq<nat>, k: Key)
    requires Took(slots, index, slots', index', epoch, keys, held, free) && free != [] && k !in index'
    requires free[|free| - 1] < |slots'| && slots'[free[|free| - 1]].state == Free
    requires forall x :: x in index' ==> index'[x] < |slots'| && slots'[index'[x]].state != Free
    ensures var i := free[|free| - 1]; var h := Handle(epoch, i, slots'[i].generation + 1);
      Took(slots, index, slots'[i := WithKey(slots'[i], k)], index'[k := i], epoch, keys + [k], held + [h], free[..|free| - 1])
  {
    var i := free[|free| - 1];
    var h := Handle(epoch, i, slots'[i].generation + 1);
    LastIsLeast(free);
    var slots2, index2 := slots'[i := WithKey(slots'[i], k)], index'[k := i];
    TakeHandles(slots', index', epoch, keys, held, i, k);
    HandlesMore(slots2, index2, epoch, keys, held, k, h);
    assert forall x :: x in keys + [k] <==> x in keys || x == k;
    forall x | x in index
      ensures KeptSlot(slots, index, slots2, index2, x)
    {
      assert KeptSlot(slots, index, slots', index', x);
    }
  }

  lemma TakeHandles(slots: seq<Slot>, index: map<Key, nat>, epoch: nat, keys: seq<Key>, held: seq<Handle>, i: nat, k: Key)
    requires HandlesFor(slots, index, epoch, keys, held) && i < |slots| && slots[i].state == Free && k !in index
    ensures HandlesFor(slots[i := WithKey(slots[i], k)], index[k := i], epoch, keys, held)
  {
  }

  lemma LastIsLeast(s: seq<nat>)
    requires Descending(s) && s != []
    ensures s[|s| - 1] in s && Descending(s[..|s| - 1])
    ensures forall x :: x in s[..|s| - 1] ==> x in s && x > s[|s| - 1]
  {
  }

  // ----- the whole reservation -----

  datatype Snapshot = Snapshot(slots: seq<Slot>, free: seq<nat>, order: seq<Key>, index: map<Key, nat>, evicted: nat,
                               used: nat, open: multiset<Handle>)

  function Protected(wanted: seq<Key>, protect: seq<Key>): (keys: set<Key>)
    ensures forall k :: k in keys <==> k in Dedup(wanted + protect)
  {
    set k | k in Dedup(wanted + protect)
  }

  /** The pre-check: the protected set fits the budget, no wanted block is being written, and
      free slots, room for slabs and evictable blocks together cover what is missing. */
  predicate Feasible(maxBytes: nat, blockBytes: nat, s: Snapshot, wanted: seq<Key>, protect: seq<Key>)
    requires blockBytes >= 1
  {
    var all := Dedup(wanted + protect);
    && |all| * blockBytes <= maxBytes
    && !Overlaps(s, Dedup(wanted))
    && |Stored(Dedup(wanted), s.index, false)|
       <= |s.free| + Growth(maxBytes, blockBytes, s.used) + Reclaimable(s.slots, Protected(wanted, protect))
  }

  predicate Overlaps(s: Snapshot, keys: seq<Key>) {
    exists k :: k in keys && k in s.index && s.index[k] < |s.slots| && s.slots[s.index[k]].state != Ready
  }

  lemma FeasibleMeans(maxBytes: nat, blockBytes: nat, s: Snapshot, wanted: seq<Key>, protect: seq<Key>)
    requires blockBytes >= 1 && Feasible(maxBytes, blockBytes, s, wanted, protect)
    requires forall k :: k in s.index ==> s.index[k] < |s.slots|
    ensures var stored := Stored(Dedup(wanted + protect), s.index, true); var missing := Stored(Dedup(wanted), s.index, false);
      && Distinct(stored) && (forall k :: k in stored ==> k in s.index)
      && (forall k :: k in stored ==> k in Protected(wanted, protect))
      && Distinct(missing) && (forall k :: k in missing ==> k !in s.index)
      && |missing| <= |s.free| + Growth(maxBytes, blockBytes, s.used) + Reclaimable(s.slots, Protected(wanted, protect))
  {
    hide Dedup, Stored, Growth, Reclaimable, Distinct;
    LeasedKeys(s, wanted, protect);
  }

  /** The first `n` idle keys in the order of their last use, or all of them. */
  function LeastUsed(order: seq<Key>, slots: seq<Slot>, index: map<Key, nat>, protected: set<Key>, n: int): seq<Key> {
    var idle := Evictable(order, slots, index, protected);
    idle[..Clamp(n, |idle|)]
  }

  /** The keys a reservation evicts: no more than it must, least recently used first. */
  function MustEvict(maxBytes: nat, blockBytes: nat, s: Snapshot, wanted: seq<Key>, protect: seq<Key>): seq<Key>
    requires blockBytes >= 1
  {
    LeastUsed(s.order, s.slots, s.index, Protected(wanted, protect), |Stored(Dedup(wanted), s.index, false)| - Growth(maxBytes, blockBytes, s.used) - |s.free|)
  }

  /** The keys a lease pins: everything protected that is stored, then everything missing. */
  function Leased(s: Snapshot, wanted: seq<Key>, protect: seq<Key>): seq<Key> {
    Stored(Dedup(wanted + protect), s.index, true) + Stored(Dedup(wanted), s.index, false)
  }

  ghost predicate Reserved(maxBytes: nat, blockBytes: nat, epoch: nat, s: Snapshot, s': Snapshot,
                           wanted: seq<Key>, protect: seq<Key>, held: seq<Handle>)
    requires blockBytes >= 1
  {
    var victims := MustEvict(maxBytes, blockBytes, s, wanted, protect);
    var missing := Stored(Dedup(wanted), s.index, false);
    && HandlesFor(s'.slots, s'.index, epoch, Leased(s, wanted, protect), held)
    && s'.open == s.open + multiset(held)
    && s'.order == Remove(s.order, victims) + missing && s'.evicted == s.evicted + |victims|
    && (forall k :: k in s'.index <==> (k in s.index && k !in victims) || k in missing)
    && (forall k :: k in s.index && k !in victims ==> Undisturbed(s, s', k))
  }

  /** Same slot, same block; at most its pins went up. */
  ghost predicate Undisturbed(s: Snapshot, s': Snapshot, k: Key)
    requires k in s.index
  {
    && k in s'.index && s'.index[k] == s.index[k] && s.index[k] < |s.slots| && s.index[k] < |s'.slots|
    && s'.slots[s.index[k]] == s.slots[s.index[k]].(pins := s'.slots[s.index[k]].pins)
  }

  lemma HandlesAfterEvict(slots: seq<Slot>, order: seq<Key>, index: map<Key, nat>, victims: seq<Key>,
                          slots': seq<Slot>, order': seq<Key>, index': map<Key, nat>, epoch: nat, keys: seq<Key>, held: seq<Handle>)
    requires Evicts(slots, order, index, victims, slots', order', index') && HandlesFor(slots, index, epoch, keys, held)
    requires forall x, y :: x in index && y in index && x != y ==> index[x] != index[y]
    requires forall k :: k in keys ==> k !in victims
    ensures HandlesFor(slots', index', epoch, keys, held)
  {
    forall j | 0 <= j < |keys|
      ensures HandleFor(slots', index', epoch, keys[j], held[j])
    {
      assert keys[j] in keys && HandleFor(slots, index, epoch, keys[j], held[j]);
      assert !IsSlotOf(index, victims, index[keys[j]]);
    }
  }

  lemma HandlesAfterTake(slots: seq<Slot>, index: map<Key, nat>, slots': seq<Slot>, index': map<Key, nat>, epoch: nat,
                         taken: seq<Key>, takenHeld: seq<Handle>, free: seq<nat>, keys: seq<Key>, held: seq<Handle>)
    requires Took(slots, index, slots', index', epoch, taken, takenHeld, free) && HandlesFor(slots, index, epoch, keys, held)
    ensures HandlesFor(slots', index', epoch, keys + taken, held + takenHeld)
  {
    forall j | 0 <= j < |keys|
      ensures HandleFor(slots', index', epoch, keys[j], held[j])
    {
      assert HandleFor(slots, index, epoch, keys[j], held[j]);
      assert KeptSlot(slots, index, slots', index', keys[j]);
    }
  }

  lemma HandlesAfterGrow(slots: seq<Slot>, slots': seq<Slot>, index: map<Key, nat>, epoch: nat, keys: seq<Key>, held: seq<Handle>)
    requires slots <= slots' && HandlesFor(slots, index, epoch, keys, held)
    ensures HandlesFor(slots', index, epoch, keys, held)
  {
  }

  /** One key through pinning, eviction, growth and allocation. */
  lemma UndisturbedThroughout(s: Snapshot, pinned: seq<Key>, slots1: seq<Slot>, victims: seq<Key>, slots2: seq<Slot>, order2: seq<Key>,
                              index2: map<Key, nat>, slots3: seq<Slot>, s': Snapshot, epoch: nat, taken: seq<Key>, held: seq<Handle>, free: seq<nat>, k: Key)
    requires PinsEach(s.slots, s.index, pinned, slots1) && Evicts(slots1, s.order, s.index, victims, slots2, order2, index2)
    requires slots2 <= slots3 && Took(slots3, index2, s'.slots, s'.index, epoch, taken, held, free)
    requires k in s.index && s.index[k] < |s.slots| && k !in victims
    requires forall x, y :: x in s.index && y in s.index && x != y ==> s.index[x] != s.index[y]
    ensures Undisturbed(s, s', k)
  {
    var i := s.index[k];
    assert !IsSlotOf(s.index, victims, i);
    assert KeptSlot(slots3, index2, s'.slots, s'.index, k);
    if k !in pinned {
      assert !IsSlotOf(s.index, pinned, i);
    }
  }

  lemma VictimsSpared(s: Snapshot, wanted: seq<Key>, protect: seq<Key>, n: nat)
    requires Distinct(s.order) && n <= |Evictable(s.order, s.slots, s.index, Protected(wanted, protect))|
    ensures var victims := Evictable(s.order, s.slots, s.index, Protected(wanted, protect))[..n];
      forall k :: k in victims ==> k !in Dedup(wanted + protect)
  {
    hide Dedup, Evictable;
    EvictableMembers(s.order, s.slots, s.index, Protected(wanted, protect));
  }

  /** The four phases, one after the other, make the reservation. */
  lemma PhasesCompose(maxBytes: nat, blockBytes: nat, epoch: nat, s: Snapshot, wanted: seq<Key>, protect: seq<Key>,
                      slots1: seq<Slot>, pinned: seq<Handle>, victims: seq<Key>, slots2: seq<Slot>, order2: seq<Key>,
                      index2: map<Key, nat>, slots3: seq<Slot>, taken: seq<Handle>, s': Snapshot)
    requires blockBytes >= 1 && Distinct(s.order) && (forall k :: k in s.index ==> s.index[k] < |s.slots|)
    requires forall x, y :: x in s.index && y in s.index && x != y ==> s.index[x] != s.index[y]
    requires var stored := Stored(Dedup(wanted + protect), s.index, true);
      PinsEach(s.slots, s.index, stored, slots1) && HandlesFor(slots1, s.index, epoch, stored, pinned)
    requires victims == MustEvict(maxBytes, blockBytes, s, wanted, protect)
    requires Evicts(slots1, s.order, s.index, victims, slots2, order2, index2)
    requires slots2 <= slots3
    requires Took(slots3, index2, s'.slots, s'.index, epoch, Stored(Dedup(wanted), s.index, false), taken, s'.free)
    requires s'.order == order2 + Stored(Dedup(wanted), s.index, false) && s'.evicted == s.evicted + |victims|
    requires s'.open == s.open + multiset(pinned) + multiset(taken)
    ensures Reserved(maxBytes, blockBytes, epoch, s, s', wanted, protect, pinned + taken)
  {
    hide PinsEach, Evicts, Took, HandlesFor, Dedup, Stored, Evictable, Remove, Growth, Distinct;
    var stored, missing := Stored(Dedup(wanted + protect), s.index, true), Stored(Dedup(wanted), s.index, false);
    LeasedKeys(s, wanted, protect);
    VictimsSpared(s, wanted, protect, |victims|);
    EvictsShape(slots1, s.order, s.index, victims, slots2, order2, index2);
    HandlesAfterEvict(slots1, s.order, s.index, victims, slots2, order2, index2, epoch, stored, pinned);
    HandlesAfterGrow(slots2, slots3, index2, epoch, stored, pinned);
    HandlesAfterTake(slots3, index2, s'.slots, s'.index, epoch, missing, taken, s'.free, stored, pinned);
    TookKeys(slots3, index2, s'.slots, s'.index, epoch, missing, taken, s'.free);
    forall k | k in s.index && k !in victims
      ensures Undisturbed(s, s', k)
    {
      UndisturbedThroughout(s, stored, slots1, victims, slots2, order2, index2, slots3, s', epoch, missing, taken, s'.free, k);
    }
    assert multiset(pinned + taken) == multiset(pinned) + multiset(taken);
  }

  /** The wanted keys are among the protected ones; stored and missing split them. */
  lemma LeasedKeys(s: Snapshot, wanted: seq<Key>, protect: seq<Key>)
    ensures var stored := Stored(Dedup(wanted + protect), s.index, true); var missing := Stored(Dedup(wanted), s.index, false);
      && Distinct(stored) && Distinct(missing)
      && (forall k :: k in stored <==> (k in wanted || k in protect) && k in s.index)
      && (forall k :: k in missing <==> k in wanted && k !in s.index)
      && (forall k :: k in stored ==> k in Dedup(wanted + protect))
    ensures forall k :: k in Dedup(wanted) <==> k in wanted
  {
    DedupMembers(wanted + protect);
    DedupMembers(wanted);
    StoredMembers(Dedup(wanted + protect), s.index, true);
    StoredMembers(Dedup(wanted), s.index, false);
  }

  /** When the pre-check passes, exactly the shortfall is evicted: the least recently used of
      what may go, and not one block more. */
  lemma EvictionIsMinimal(maxBytes: nat, blockBytes: nat, s: Snapshot, wanted: seq<Key>, protect: seq<Key>)
    requires blockBytes >= 1 && Feasible(maxBytes, blockBytes, s, wanted, protect)
    requires Linked(s.slots, s.free, s.order, s.index)
    ensures var victims := MustEvict(maxBytes, blockBytes, s, wanted, protect);
      var idle := Evictable(s.order, s.slots, s.index, Protected(wanted, protect));
      var short := |Stored(Dedup(wanted), s.index, false)| - |s.free| - Growth(maxBytes, blockBytes, s.used);
      && |victims| == (if short > 0 then short else 0) && victims <= idle
      && forall k :: k in victims ==> k !in wanted && k !in protect && k in s.index && s.slots[s.index[k]].pins == 0
  {
    hide Dedup, Stored, Evictable, Growth, Reclaimable;
    ReclaimableIsEvictable(s.slots, s.free, s.order, s.index, Protected(wanted, protect));
    EvictableMembers(s.order, s.slots, s.index, Protected(wanted, protect));
    DedupMembers(wanted + protect);
    assert forall k :: k in wanted || k in protect ==> k in wanted + protect;
  }

  lemma LeasedApart(s: Snapshot, wanted: seq<Key>, protect: seq<Key>)
    ensures Distinct(Leased(s, wanted, protect))
  {
    hide Dedup, Stored;
    LeasedKeys(s, wanted, protect);
    var stored, missing := Stored(Dedup(wanted + protect), s.index, true), Stored(Dedup(wanted), s.index, false);
    forall i, j | 0 <= i < j < |stored + missing|
      ensures (stored + missing)[i] != (stored + missing)[j]
    {
      if i < |stored| <= j {
        assert stored[i] in stored && missing[j - |stored|] in missing;
      }
    }
  }

  lemma HandlesApart(slots: seq<Slot>, free: seq<nat>, order: seq<Key>, index: map<Key, nat>,
                     epoch: nat, open: multiset<Handle>, issued: map<Handle, Key>, written: map<Handle, Contents>, keys: seq<Key>, held: seq<Handle>)
    requires Sound(slots, free, order, index, epoch, open, issued, written) && HandlesFor(slots, index, epoch, keys, held) && Distinct(keys)
    ensures Distinct(held)
  {
    hide Pinned, Recorded;
    forall i, j | 0 <= i < j < |held|
      ensures held[i] != held[j]
    {
      assert HandleFor(slots, index, epoch, keys[i], held[i]) && HandleFor(slots, index, epoch, keys[j], held[j]);
    }
  }

  function HandleMap(keys: seq<Key>, held: seq<Handle>): map<Key, Handle>
    requires |keys| == |held|
  {
    if keys == [] then map[]
    else HandleMap(keys[..|keys| - 1], held[..|held| - 1])[keys[|keys| - 1] := held[|held| - 1]]
  }

  lemma {:induction false} HandleMapMeaning(slots: seq<Slot>, index: map<Key, nat>, epoch: nat, keys: seq<Key>, held: seq<Handle>)
    requires HandlesFor(slots, index, epoch, keys, held)
    ensures forall k :: k in HandleMap(keys, held) <==> k in keys
    ensures forall k :: k in HandleMap(keys, held) ==> HandleFor(slots, index, epoch, k, HandleMap(keys, held)[k])
  {
    if keys != [] {
      HandleMapMeaning(slots, index, epoch, keys[..|keys| - 1], held[..|held| - 1]);
      assert keys == keys[..|keys| - 1] + [keys[|keys| - 1]];
      assert HandleFor(slots, index, epoch, keys[|keys| - 1], held[|held| - 1]);
    }
  }

  // ----- the store -----

  /** A group of pins taken together. */
  class Lease {
    const keys: seq<Key>
    const handles: map<Key, Handle>
    const held: seq<Handle>
    const epoch: nat
    var closed: bool

    constructor (keys: seq<Key>, handles: map<Key, Handle>, held: seq<Handle>, epoch: nat)
      ensures this.keys == keys && this.handles == handles && this.held == held && this.epoch == epoch && !closed
    {
      this.keys, this.handles, this.held, this.epoch := keys, handles, held, epoch;
      closed := false;
    }
  }

  class BlockStore {
    const maxBytes: nat
    const blockBytes: nat
    const slabBlocks: nat
    const demandSized: bool
    var slots: seq<Slot>
    var free: seq<nat>
    var order: seq<Key>
    var index: map<Key, nat>
    var slabs: nat
    var retired: nat
    var epoch: nat
    var evicted: nat
    ghost var open: multiset<Handle>
    ghost var issued: map<Handle, Key>
    ghost var written: map<Handle, Contents>

    /** `retired` counts blocks of dropped slabs that somebody outside still refers to. */
    ghost predicate Valid()
      reads this
    {
      && blockBytes >= 1 && slabBlocks >= 1
      && Sound(slots, free, order, index, epoch, open, issued, written)
      && (|slots| + retired) * blockBytes <= maxBytes
    }

    constructor (maxBytes: nat, blockBytes: nat, slabBytes: nat, demandSized: bool)
      requires blockBytes >= 1
      ensures Valid() && epoch == 0 && this.maxBytes == maxBytes && this.blockBytes == blockBytes
      ensures Now() == Snapshot([], [], [], map[], 0, 0, multiset{}) && issued == map[] && written == map[]
    {
      this.maxBytes, this.blockBytes, this.demandSized := maxBytes, blockBytes, demandSized;
      slabBlocks := if slabBytes / blockBytes > 1 then slabBytes / blockBytes else 1;
      slots, free, order, index := [], [], [], map[];
      slabs, retired, epoch, evicted := 0, 0, 0, 0;
      open, issued, written := multiset{}, map[], map[];
    }

    function Resolve(h: Handle, ready: bool): Option<nat>
      reads this
    {
      if !Names(slots, epoch, h) then None
      else if ready && slots[h.slot].state != Ready then None
      else Some(h.slot)
    }

    /** A handle resolves only to the slot it was issued for, still holding the same key; once
        ready, to exactly the contents committed under it. */
    lemma ResolveMeaning(h: Handle, ready: bool)
      requires Valid() && h in issued
      ensures Resolve(h, ready).Some? ==>
        var s := slots[Resolve(h, ready).value];
        && s.key == Some(issued[h]) && issued[h] in index && index[issued[h]] == h.slot
        && (s.state == Ready ==> h in written && s.data == written[h])
    {
      if Names(slots, epoch, h) {
        assert h == Handle(epoch, h.slot, slots[h.slot].generation);
      }
    }

    /** An open handle whose contents were never committed. */
    lemma StillWriting(h: Handle)
      requires Valid() && h in open && h !in written
      ensures h.epoch == epoch && h.slot < |slots| && slots[h.slot].state == Writing
      ensures slots[h.slot].generation == h.generation && slots[h.slot].pins == open[h]
    {
      assert h == Handle(epoch, h.slot, slots[h.slot].generation);
    }

    /** `_free`; the caller has checked that nobody holds the slot. */
    method FreeSlot(i: nat)
      requires Valid() && i < |slots| && slots[i].state != Free && slots[i].pins == 0
      modifies this`slots, this`free, this`order, this`index
      ensures Valid() && old(slots[i]).key.Some?
      ensures var k := old(slots[i]).key.value;
        && slots == old(slots)[i := Emptied(old(slots[i]))] && free == old(free) + [i]
        && order == Without(old(order), k) && index == old(index) - {k}
    {
      hide Sound;
      FreeStep(slots, free, order, index, epoch, open, issued, written, i);
      var k := slots[i].key.value;
      index := index - {k};
      order := Without(order, k);
      slots := slots[i := Emptied(slots[i])];
      free := free + [i];
    }

    method Evict(k: Key) returns (gone: bool)
      requires Valid()
      modifies this`slots, this`free, this`order, this`index, this`evicted
      ensures Valid()
      ensures k in old(index) ==> old(index)[k] < |old(slots)|
      ensures gone <==> k in old(index) && old(slots)[old(index)[k]].pins == 0
      ensures gone ==>
        && slots == old(slots)[old(index)[k] := Emptied(old(slots)[old(index)[k]])] && free == old(free) + [old(index)[k]]
        && order == Without(old(order), k) && index == old(index) - {k} && evicted == old(evicted) + 1
      ensures !gone ==> slots == old(slots) && free == old(free) && order == old(order) && index == old(index) && evicted == old(evicted)
    {
      hide Sound;
      SoundAt(slots, free, order, index, epoch, open, issued, written);
      if k !in index || slots[index[k]].pins != 0 {
        return false;
      }
      FreeSlot(index[k]);
      evicted := evicted + 1;
      gone := true;
    }

    /** `lookup`: a ready block becomes the most recently used. */
    method Lookup(k: Key) returns (h: Option<Handle>)
      requires Valid()
      modifies this`order
      ensures Valid()
      ensures k in index ==> index[k] < |slots|
      ensures h == if k in index && slots[index[k]].state == Ready then Some(Handle(epoch, index[k], slots[index[k]].generation)) else None
      ensures order == if h.Some? then Without(old(order), k) + [k] else old(order)
    {
      hide Sound;
      SoundAt(slots, free, order, index, epoch, open, issued, written);
      if k !in index || slots[index[k]].state != Ready {
        return None;
      }
      UseStep(slots, free, order, index, epoch, open, issued, written, k);
      order := Without(order, k) + [k];
      h := Some(Handle(epoch, index[k], slots[index[k]].generation));
    }

    /** One more holder of a stored block. */
    method Pin(k: Key) returns (h: Handle)
      requires Valid() && k in index
      modifies this`slots, this`open
      ensures Valid() && index[k] < |old(slots)|
      ensures var i := index[k];
        && h == Handle(epoch, i, old(slots)[i].generation)
        && slots == old(slots)[i := old(slots)[i].(pins := old(slots)[i].pins + 1)] && open == old(open) + multiset{h}
    {
      hide Sound;
      SoundAt(slots, free, order, index, epoch, open, issued, written);
      var i := index[k];
      PinStep(slots, free, order, index, epoch, open, issued, written, i);
      h := Handle(epoch, i, slots[i].generation);
      slots := slots[i := slots[i].(pins := slots[i].pins + 1)];
      open := open + multiset{h};
    }

    /** The next free slot, for a block about to be written. */
    method Take(k: Key) returns (h: Handle)
      requires Valid() && k !in index && free != []
      modifies this`slots, this`free, this`order, this`index, this`open, this`issued
      ensures Valid() && old(free)[|old(free)| - 1] < |old(slots)|
      ensures var i := old(free)[|old(free)| - 1];
        && h == Handle(epoch, i, old(slots)[i].generation + 1)
        && slots == old(slots)[i := WithKey(old(slots)[i], k)] && free == old(free)[..|old(free)| - 1]
        && order == old(order) + [k] && index == old(index)[k := i]
        && open == old(open) + multiset{h} && h !in old(issued) && issued == old(issued)[h := k]
    {
      hide Sound;
      TakeStep(slots, free, order, index, epoch, open, issued, written, k);
      var i := free[|free| - 1];
      h := Handle(epoch, i, slots[i].generation + 1);
      free := free[..|free| - 1];
      slots := slots[i := WithKey(slots[i], k)];
      order := order + [k];
      index := index[k := i];
      open := open + multiset{h};
      issued := issued[h := k];
    }

    /** A new slab, within the budget. */
    method AddSlab(count: nat)
      requires Valid() && count <= Growth(maxBytes, blockBytes, |slots| + retired)
      modifies this`slots, this`free, this`slabs
      ensures Valid() && slots == old(slots) + Fresh(old(slabs), count) && free == old(free) + Indices(|old(slots)|, count)
      ensures Growth(maxBytes, blockBytes, |slots| + retired) == Growth(maxBytes, blockBytes, |old(slots)| + retired) - count
    {
      hide Sound, Growth;
      GrowStep(slots, free, order, index, epoch, open, issued, written, slabs, count);
      GrowthDrops(maxBytes, blockBytes, |slots| + retired, count);
      free := free + Indices(|slots|, count);
      slots := slots + Fresh(slabs, count);
      slabs := slabs + 1;
    }

    /** The copy into a reserved slot. */
    method Fill(h: Handle, data: Contents) returns (ok: bool)
      requires Valid()
      modifies this`slots
      ensures Valid() && (ok <==> Names(old(slots), epoch, h) && old(slots)[h.slot].state == Writing)
      ensures slots == if ok then old(slots)[h.slot := old(slots)[h.slot].(data := data)] else old(slots)
    {
      hide Sound;
      ok := Names(slots, epoch, h) && slots[h.slot].state == Writing;
      if ok {
        FillStep(slots, free, order, index, epoch, open, issued, written, h, data);
        slots := slots[h.slot := slots[h.slot].(data := data)];
      }
    }

    /** `commit`: from here on the contents never change under this handle. */
    method Commit(h: Handle) returns (r: Result<()>)
      requires Valid()
      modifies this`slots, this`written
      ensures Valid()
      ensures r.Ok? <==> Names(old(slots), epoch, h) && old(slots)[h.slot].state == Writing
      ensures r.Ok? ==>
        && slots == old(slots)[h.slot := old(slots)[h.slot].(state := Ready)]
        && h !in old(written) && written == old(written)[h := old(slots)[h.slot].data]
      ensures r.Err? ==> slots == old(slots) && written == old(written)
    {
      hide Sound;
      if !Names(slots, epoch, h) || slots[h.slot].state != Writing {
        return Err(NotWritable);
      }
      CommitStep(slots, free, order, index, epoch, open, issued, written, h);
      written := written[h := slots[h.slot].data];
      slots := slots[h.slot := slots[h.slot].(state := Ready)];
      r := Ok(());
    }
  
    // ----- the phases of a reservation -----

    /** Pins every given key. */
    method PinAll(keys: seq<Key>) returns (held: seq<Handle>)
      requires Valid() && Distinct(keys)
      requires forall k :: k in keys ==> k in index
      modifies this`slots, this`open
      ensures Valid() && PinsEach(old(slots), index, keys, slots) && open == old(open) + multiset(held)
      ensures HandlesFor(slots, index, epoch, keys, held)
    {
      hide Sound, Linked, PinsEach, HandlesFor, Distinct;
      held := [];
      SoundAt(slots, free, order, index, epoch, open, issued, written);
      SoundInjective(slots, free, order, index, epoch, open, issued, written);
      assert keys[..0] == [] && open + multiset([]) == open;
      NothingPinned(slots, index, epoch);
      for j := 0 to |keys|
        invariant |slots| == |old(slots)|
        invariant Valid() && PinsEach(old(slots), index, keys[..j], slots) && open == old(open) + multiset(held)
        invariant HandlesFor(slots, index, epoch, keys[..j], held)
      {
        DistinctNext(keys, j);
        PinsMore(old(slots), index, keys[..j], slots, keys[j]);
        ghost var i := index[keys[j]];
        HandlesAfterPin(slots, index, epoch, keys[..j], held, i, slots[i].pins + 1);
        var h := Pin(keys[j]);
        HandlesMore(slots, index, epoch, keys[..j], held, keys[j], h);
        assert multiset(held + [h]) == multiset(held) + multiset{h};
        held := held + [h];
      }
      assert keys[..|keys|] == keys;
    }

    /** Evicts idle keys, oldest first, until what is free and what may be grown suffice. */
    method EvictFor(protected: set<Key>, wanted: nat, growth: nat) returns (ghost victims: seq<Key>)
      requires Valid()
      modifies this`slots, this`free, this`order, this`index, this`evicted
      ensures Valid()
      ensures victims == LeastUsed(old(order), old(slots), old(index), protected, wanted - growth - |old(free)|)
      ensures Evicts(old(slots), old(order), old(index), victims, slots, order, index)
      ensures |free| == |old(free)| + |victims| && evicted == old(evicted) + |victims|
    {
      hide Sound, Linked, Evicts, Evictable, Distinct;
      var snapshot := order;
      victims := [];
      SoundInjective(slots, free, order, index, epoch, open, issued, written);
      SoundAt(slots, free, order, index, epoch, open, issued, written);
      NothingEvicted(slots, order, index);
      assert snapshot[..0] == [] && Evictable([], slots, index, protected) == [] by { EvictableNone(slots, index, protected); }
      var i := 0;
      while i < |snapshot| && |free| + growth < wanted
        invariant 0 <= i <= |snapshot| && Valid()
        invariant victims == Evictable(snapshot[..i], old(slots), old(index), protected)
        invariant Evicts(old(slots), old(order), old(index), victims, slots, order, index)
        invariant |free| == |old(free)| + |victims| && evicted == old(evicted) + |victims|
        invariant victims == [] || |free| + growth <= wanted
      {
        var k := snapshot[i];
        NextVictim(snapshot, i, old(slots), old(index), protected);
        EvictsMore(old(slots), old(order), old(index), victims, slots, order, index, k);
        if k !in protected {
          var gone := Evict(k);
          if gone {
            victims := victims + [k];
          }
        }
        i := i + 1;
      }
      EvictablePrefix(snapshot, i, old(slots), old(index), protected);
      assert snapshot[..|snapshot|] == snapshot;
    }

    /** Adds slabs until enough slots are free; within the computed growth this cannot fail. */
    method GrowFor(wanted: nat)
      requires Valid() && wanted <= |free| + Growth(maxBytes, blockBytes, |slots| + retired)
      modifies this`slots, this`free, this`slabs
      ensures Valid() && |free| >= wanted
      ensures old(slots) <= slots && old(free) <= free && |slots| - |old(slots)| == |free| - |old(free)|
    {
      hide Sound, Growth;
      while |free| < wanted
        invariant Valid() && wanted <= |free| + Growth(maxBytes, blockBytes, |slots| + retired)
        invariant old(slots) <= slots && old(free) <= free && |slots| - |old(slots)| == |free| - |old(free)|
        decreases wanted - |free|
      {
        var count := Min(slabBlocks, Growth(maxBytes, blockBytes, |slots| + retired));
        if demandSized {
          count := Min(count, wanted - |free|);
        }
        AddSlab(count);
      }
    }

    /** The free slots, highest first: slots are taken from the back. */
    method SortFree()
      requires Valid()
      modifies this`free
      ensures Valid() && |free| == |old(free)| && Descending(free)
    {
      hide Sound, Linked, SortDown, Distinct;
      SoundAt(slots, free, order, index, epoch, open, issued, written);
      SortDownMembers(free);
      DescendingDistinct(SortDown(free));
      SortStep(slots, free, order, index, epoch, open, issued, written, SortDown(free));
      free := SortDown(free);
    }

    /** The next key, after those already taken for. */
    method TakeNext(k: Key, ghost slots0: seq<Slot>, ghost index0: map<Key, nat>, ghost keys: seq<Key>, ghost held: seq<Handle>) returns (h: Handle)
      requires Valid() && k !in index && free != [] && Took(slots0, index0, slots, index, epoch, keys, held, free)
      modifies this`slots, this`free, this`order, this`index, this`open, this`issued
      ensures Valid() && order == old(order) + [k] && open == old(open) + multiset{h} && |free| == |old(free)| - 1
      ensures Took(slots0, index0, slots, index, epoch, keys + [k], held + [h], free)
      ensures forall x :: x in old(issued) ==> x in issued && issued[x] == old(issued)[x]
    {
      hide Sound, Linked, Took;
      SoundAt(slots, free, order, index, epoch, open, issued, written);
      assert free[|free| - 1] in free;
      TookMore(slots0, index0, slots, index, epoch, keys, held, free, k);
      h := Take(k);
    }

    /** Hands the lowest free slots to the missing keys, in order. */
    method TakeAll(missing: seq<Key>) returns (held: seq<Handle>)
      requires Valid() && Distinct(missing) && (forall k :: k in missing ==> k !in index) && |missing| <= |free|
      modifies this`slots, this`free, this`order, this`index, this`open, this`issued
      ensures Valid() && order == old(order) + missing && open == old(open) + multiset(held)
      ensures Took(old(slots), old(index), slots, index, epoch, missing, held, free)
      ensures forall h :: h in old(issued) ==> h in issued && issued[h] == old(issued)[h]
    {
      hide Sound, Linked, Took, Distinct, Descending;
      SoundAt(slots, free, order, index, epoch, open, issued, written);
      SortFree();
      held := [];
      assert missing[..0] == [] && order + [] == order && open + multiset([]) == open;
      NothingTaken(slots, index, epoch, free);
      for j := 0 to |missing|
        invariant Valid() && order == old(order) + missing[..j] && open == old(open) + multiset(held)
        invariant |missing| - j <= |free|
        invariant Took(old(slots), old(index), slots, index, epoch, missing[..j], held, free)
        invariant forall h :: h in old(issued) ==> h in issued && issued[h] == old(issued)[h]
      {
        DistinctNext(missing, j);
        SoundAt(slots, free, order, index, epoch, open, issued, written);
        TookKeys(old(slots), old(index), slots, index, epoch, missing[..j], held, free);
        var h := TakeNext(missing[j], old(slots), old(index), missing[..j], held);
        assert multiset(held + [h]) == multiset(held) + multiset{h};
        assert missing[..j + 1] == missing[..j] + [missing[j]];
        held := held + [h];
      }
      assert missing[..|missing|] == missing;
    }

    /** `Lease.close`: idempotent, and nothing after an invalidation.  It fails exactly when one of
        its blocks is still being written under another lease, and then the pins after that one
        are never given back: the lease counts as closed. */
    method Close(lease: Lease) returns (ok: bool)
      requires Valid() && (!lease.closed && lease.epoch == epoch ==> multiset(lease.held) <= open && Distinct(lease.held))
      modifies this`slots, this`free, this`order, this`index, this`open, lease`closed
      ensures Valid() && lease.closed
      ensures old(lease.closed) || lease.epoch != epoch ==> ok && Now() == old(Now())
      ensures !old(lease.closed) && lease.epoch == epoch ==>
        && open == old(open) - multiset(lease.held[..GivenBack(old(slots), lease.held)])
        && (ok <==> forall h :: h in lease.held ==> !Contended(old(slots), h))
        && (ok ==> GivenBack(old(slots), lease.held) == |lease.held|)
      ensures Survives(old(slots), old(index), slots, index)
    {
      if lease.closed {
        SurvivesRefl(slots, index);
        return true;
      }
      lease.closed := true;
      if lease.epoch != epoch {
        SurvivesRefl(slots, index);
        return true;
      }
      ok := UnpinAll(lease.held);
    }

    lemma HeldApart(held: seq<Handle>)
      requires Valid() && multiset(held) <= open && Distinct(held)
      ensures forall j :: 0 <= j < |held| ==> held[j].slot < |slots|
      ensures forall j, m :: 0 <= j < m < |held| ==> held[j].slot != held[m].slot
    {
      hide Sound;
      SlotsApart(slots, free, order, index, epoch, open, issued, written, held);
    }

    method UnpinAll(held: seq<Handle>) returns (ok: bool)
      requires Valid() && multiset(held) <= open && Distinct(held)
      modifies this`slots, this`free, this`order, this`index, this`open
      ensures Valid() && open == old(open) - multiset(held[..GivenBack(old(slots), held)])
      ensures ok <==> forall h :: h in held ==> !Contended(old(slots), h)
      ensures ok ==> GivenBack(old(slots), held) == |held|
      ensures Survives(old(slots), old(index), slots, index)
    {
      hide *;
      HeldApart(held);
      GivingBackStart(slots, open, held);
      SurvivesRefl(slots, index);
      for j := 0 to |held|
        invariant Valid() && GivingBack(old(slots), old(open), held, j, slots, open)
        invariant Survives(old(slots), old(index), slots, index)
      {
        GivingBackNext(old(slots), old(open), held, j, slots, open);
        ghost var slots1, index1, open1 := slots, index, open;
        var freed := Unpin(held[j]);
        SurvivesTrans(old(slots), old(index), slots1, index1, slots, index);
        if !freed {
          GivingBackStops(old(slots), old(open), held, j, slots1, open1);
          return false;
        }
        GivingBackStep(old(slots), old(open), held, j, slots1, open1, slots, open);
      }
      GivingBackEnds(old(slots), old(open), held, slots, open);
      ok := true;
    }

    /** One holder less; an uncommitted block is freed with its last holder, and it is an error
        to give it up before. */
    method Unpin(h: Handle) returns (ok: bool)
      requires Valid() && h in open
      modifies this`slots, this`free, this`order, this`index, this`open
      ensures Valid() && open == old(open) - multiset{h} && (ok <==> !Contended(old(slots), h))
      ensures |slots| == |old(slots)| && forall i: nat :: i < |slots| && i != h.slot ==> slots[i] == old(slots)[i]
      ensures Survives(old(slots), old(index), slots, index)
    {
      hide Sound, Linked, Survives;
      UnpinStep(slots, free, order, index, epoch, open, issued, written, h);
      SurvivesUnpin(slots, index, h.slot);
      ok := !Contended(slots, h);
      var s := slots[h.slot].(pins := slots[h.slot].pins - 1);
      open := open - multiset{h};
      if s.state == Ready || !ok {
        slots := slots[h.slot := s];
      } else {
        slots := slots[h.slot := Emptied(s)];
        free := free + [h.slot];
        order := Without(order, s.key.value);
        index := index - {s.key.value};
      }
    }

    /** Every slot is freed under a new epoch, in place or dropped with its slab. */
    method ResetSlots(emptied: seq<Slot>)
      requires blockBytes >= 1 && slabBlocks >= 1 && Sound(slots, free, order, index, epoch, open, issued, written)
      requires forall i :: 0 <= i < |emptied| ==> emptied[i].state == Free && emptied[i].key == None && emptied[i].pins == 0
      modifies this`slots, this`free, this`order, this`index, this`epoch, this`open
      ensures Sound(slots, free, order, index, epoch, open, issued, written) && slots == emptied
      ensures epoch == old(epoch) + 1 && order == [] && index == map[] && open == multiset{}
    {
      hide Sound;
      ResetSound(slots, free, order, index, epoch, open, issued, written, emptied);
      slots, free, epoch := emptied, Indices(0, |emptied|), epoch + 1;
      order, index, open := [], map[], multiset{};
    }

    /** `invalidate_all`: every handle of this epoch is dead.  Dropped slabs count against the
        budget for as long as somebody outside holds `stillHeld` of their blocks. */
    method InvalidateAll(release: bool, stillHeld: nat)
      requires Valid() && stillHeld <= |slots|
      modifies this`slots, this`free, this`order, this`index, this`slabs, this`retired, this`epoch, this`open
      ensures Valid() && epoch == old(epoch) + 1 && order == [] && index == map[] && open == multiset{}
      ensures forall h: Handle :: h.epoch <= old(epoch) ==> Resolve(h, false) == None
      ensures |slots| + retired <= old(|slots| + retired)
    {
      hide Sound;
      if release {
        MulOrder(retired + stillHeld, |slots| + retired, blockBytes);
        ResetSlots([]);
        retired, slabs := retired + stillHeld, 0;
      } else {
        var was := slots;
        ResetSlots(seq(|was|, i requires 0 <= i < |was| => was[i].(state := Free, key := None, pins := 0)));
      }
    }

    /** Splits keys, in order, into stretches that one transfer can cover. */
    method Runs(keys: seq<Key>, maxBlocks: nat) returns (runs: seq<seq<Key>>)
      requires Valid() && forall k :: k in keys ==> k in index
      ensures Valid() && forall k :: k in keys ==> k in index && index[k] < |slots|
      ensures Joined(runs) == keys
      ensures forall r :: 0 <= r < |runs| ==> IsRun(slots, index, runs[r]) && (maxBlocks >= 1 ==> |runs[r]| <= maxBlocks)
    {
      hide Sound, Linked, Joined, IsRun;
      SoundAt(slots, free, order, index, epoch, open, issued, written);
      runs := [];
      assert keys[..0] == [] && Joined([]) == [] by { JoinedNothing(); }
      for j := 0 to |keys|
        invariant Joined(runs) == keys[..j] && (j > 0 ==> runs != [])
        invariant forall r :: 0 <= r < |runs| ==> IsRun(slots, index, runs[r]) && (maxBlocks >= 1 ==> |runs[r]| <= maxBlocks)
      {
        var k := keys[j];
        assert k in keys && keys[..j + 1] == keys[..j] + [k];
        if runs != [] {
          var run := runs[|runs| - 1];
          RunShape(slots, index, run);
          if Adjacent(slots[index[run[|run| - 1]]], slots[index[k]]) && (maxBlocks == 0 || |run| < maxBlocks) {
            RunGrows(slots, index, run, k);
            JoinedLast(runs, k);
            runs := runs[..|runs| - 1] + [run + [k]];
            continue;
          }
        }
        SingleRun(slots, index, k);
        JoinedMore(runs, [k]);
        runs := runs + [[k]];
      }
      assert keys[..|keys|] == keys;
    }

    /** `view`: the stretch of one slab that the handles name. */
    method View(handles: seq<Handle>) returns (r: Result<(nat, nat)>)
      requires Valid()
      ensures r.Ok? <==> handles != [] && InOneStretch(slots, epoch, handles)
      ensures r.Ok? ==> r.value == (slots[handles[0].slot].slab, slots[handles[0].slot].offset)
    {
      if handles == [] || exists j :: 0 <= j < |handles| && !Names(slots, epoch, handles[j]) {
        return Err(NotWritable);
      }
      var first := slots[handles[0].slot];
      if exists j :: 0 <= j < |handles| &&
           (slots[handles[j].slot].slab != first.slab || slots[handles[j].slot].offset != first.offset + j) {
        return Err(NotWritable);
      }
      r := Ok((first.slab, first.offset));
    }

    ghost function Now(): Snapshot
      reads this
    {
      Snapshot(slots, free, order, index, evicted, |slots| + retired, open)
    }

    /** The first two phases; what is pinned first is not evicted. */
    method PinAndEvict(stored: seq<Key>, protected: set<Key>, wanted: nat, growth: nat)
      returns (pinned: seq<Handle>, ghost slots1: seq<Slot>, ghost victims: seq<Key>)
      requires Valid() && Distinct(stored) && forall k :: k in stored ==> k in protected
      requires forall k :: k in stored ==> k in index
      modifies this`slots, this`free, this`order, this`index, this`evicted, this`open
      ensures Valid() && open == old(open) + multiset(pinned)
      ensures PinsEach(old(slots), old(index), stored, slots1) && HandlesFor(slots1, old(index), epoch, stored, pinned)
      ensures victims == LeastUsed(old(order), old(slots), old(index), protected, wanted - growth - |old(free)|)
      ensures Evicts(slots1, old(order), old(index), victims, slots, order, index)
      ensures |free| == |old(free)| + |victims| && evicted == old(evicted) + |victims| && |slots| == |old(slots)|
    {
      hide Sound, Linked, Evicts, PinsEach, HandlesFor, Distinct, Evictable, Remove;
      SoundAt(slots, free, order, index, epoch, open, issued, written);
      SoundInjective(slots, free, order, index, epoch, open, issued, written);
      pinned := PinAll(stored);
      slots1 := slots;
      PinsSize(old(slots), index, stored, slots1);
      EvictableAfterPins(order, old(slots), index, protected, stored, slots1);
      victims := EvictFor(protected, wanted, growth);
      EvictsShape(slots1, old(order), old(index), victims, slots, order, index);
    }

    /** The last two phases. */
    method GrowAndTake(missing: seq<Key>) returns (held: seq<Handle>, ghost grown: seq<Slot>)
      requires Valid() && Distinct(missing) && (forall k :: k in missing ==> k !in index)
      requires |missing| <= |free| + Growth(maxBytes, blockBytes, |slots| + retired)
      modifies this`slots, this`free, this`order, this`index, this`slabs, this`open, this`issued
      ensures Valid() && order == old(order) + missing && open == old(open) + multiset(held)
      ensures old(slots) <= grown && Took(grown, old(index), slots, index, epoch, missing, held, free)
      ensures forall h :: h in old(issued) ==> h in issued && issued[h] == old(issued)[h]
    {
      hide Sound, Linked, Took, Distinct, Growth;
      GrowFor(|missing|);
      grown := slots;
      held := TakeAll(missing);
    }

    /** Everything after the pre-check: pin, evict, grow, take. */
    method Acquire(wanted: seq<Key>, protect: seq<Key>) returns (held: seq<Handle>)
      requires Valid() && Feasible(maxBytes, blockBytes, Now(), wanted, protect)
      modifies this`slots, this`free, this`order, this`index, this`slabs, this`evicted, this`open, this`issued
      ensures Valid() && Reserved(maxBytes, blockBytes, epoch, old(Now()), Now(), wanted, protect, held)
      ensures forall h :: h in old(issued) ==> h in issued && issued[h] == old(issued)[h]
    {
      hide Sound, Linked, Evicts, PinsEach, Took, HandlesFor, Distinct, Growth, Dedup, Stored, Reclaimable, Evictable, Remove, Reserved, Feasible, Overlaps, Protected;
      ghost var s := Now();
      var all := Dedup(wanted + protect);
      var protected := Protected(wanted, protect);
      var missing, growth := Stored(Dedup(wanted), index, false), Growth(maxBytes, blockBytes, |slots| + retired);
      var stored := Stored(all, index, true);
      SoundAt(slots, free, order, index, epoch, open, issued, written);
      SoundInjective(slots, free, order, index, epoch, open, issued, written);
      SoundEvictable(slots, free, order, index, epoch, open, issued, written, protected);
      FeasibleMeans(maxBytes, blockBytes, s, wanted, protect);
      var pinned, slots1, victims := PinAndEvict(stored, protected, |missing|, growth);
      ghost var slots2, order2, index2 := slots, order, index;
      EvictsShape(slots1, s.order, s.index, victims, slots2, order2, index2);
      var taken, slots3 := GrowAndTake(missing);
      PhasesCompose(maxBytes, blockBytes, epoch, s, wanted, protect, slots1, pinned, victims, slots2, order2, index2, slots3, taken, Now());
      held := pinned + taken;
    }

    /** `reserve` succeeds exactly when its pre-check passes; if not, nothing has changed.  It
        then pins every protected and every missing key, evicts exactly the fewest least
        recently used idle blocks, and stays within the byte budget. */
    method Reserve(wanted: seq<Key>, protect: seq<Key>) returns (r: Result<Lease>)
      requires Valid()
      modifies this`slots, this`free, this`order, this`index, this`slabs, this`evicted, this`open, this`issued
      ensures Valid()
      ensures r.Ok? <==> Feasible(maxBytes, blockBytes, old(Now()), wanted, protect)
      ensures r.Err? ==> Now() == old(Now()) && issued == old(issued)
      ensures r.Ok? ==>
        && fresh(r.value) && !r.value.closed && r.value.epoch == epoch && r.value.keys == Dedup(wanted)
        && Reserved(maxBytes, blockBytes, epoch, old(Now()), Now(), wanted, protect, r.value.held)
        && (forall k :: k in r.value.handles <==> k in Leased(old(Now()), wanted, protect))
        && (forall k :: k in r.value.handles ==> HandleFor(slots, index, epoch, k, r.value.handles[k]))
        && Distinct(r.value.held)
      ensures forall h :: h in old(issued) ==> h in issued && issued[h] == old(issued)[h]
    {
      hide Sound, Linked, HandlesFor, Distinct, Growth, Dedup, Stored, Reclaimable, Remove, MustEvict, Undisturbed;
      SoundAt(slots, free, order, index, epoch, open, issued, written);
      var keys, all := Dedup(wanted), Dedup(wanted + protect);
      if |all| * blockBytes > maxBytes {
        return Err(OverBudget);
      }
      if exists k :: k in keys && k in index && slots[index[k]].state != Ready {
        return Err(Overlapping);
      }
      var missing := Stored(keys, index, false);
      if |missing| > |free| + Growth(maxBytes, blockBytes, |slots| + retired) + Reclaimable(slots, Protected(wanted, protect)) {
        return Err(Unreleasable);
      }
      var leased := Stored(all, index, true) + missing;
      var held := Acquire(wanted, protect);
      HandlesSize(slots, index, epoch, leased, held);
      HandleMapMeaning(slots, index, epoch, leased, held);
      LeasedApart(old(Now()), wanted, protect);
      HandlesApart(slots, free, order, index, epoch, open, issued, written, leased, held);
      var lease := new Lease(keys, HandleMap(leased, held), held, epoch);
      r := Ok(lease);
    }
  }

  // ----- a pin that nobody gives back -----

  lemma OneKey(k: Key, index: map<Key, nat>)
    ensures Dedup([k]) == [k] && Stored([k], index, true) == (if k in index then [k] else [])
    ensures Stored([k], index, false) == if k in index then [] else [k]
  {
    assert [k][..0] == [] && [k][1..] == [];
    assert Dedup([]) == [] && Stored([], index, true) == [] && Stored([], index, false) == [];
  }

  lemma FirstFeasible()
    ensures Feasible(4, 1, Snapshot([], [], [], map[], 0, 0, multiset{}), [1], [])
  {
    hide Dedup, Stored;
    assert [1] + [] == [1];
    OneKey(1, map[]);
  }

  lemma FirstLease(s0: Snapshot, s1: Snapshot, held: seq<Handle>)
    requires s0.index == map[] && s0.open == multiset{} && Reserved(4, 1, 0, s0, s1, [1], [], held)
    ensures |held| == 1 && s1.open == multiset{held[0]} && HandleFor(s1.slots, s1.index, 0, 1, held[0])
    ensures forall k :: k in s1.index <==> k == 1
  {
    hide MustEvict, Undisturbed, Dedup, Stored, Names;
    assert [1] + [] == [1];
    OneKey(1, map[]);
    assert Leased(s0, [1], []) == [1];
    assert held == [held[0]];
  }

  /** Two keys, the second one stored already. */
  lemma TwoKeys(index: map<Key, nat>)
    requires forall k :: k in index <==> k == 1
    ensures Dedup([2]) == [2] && Dedup([2] + [1]) == [2, 1]
    ensures Stored([2, 1], index, true) == [1] && Stored([2], index, false) == [2]
  {
    OneKey(2, index);
    OneKey(1, index);
    assert [2] + [1] == [2, 1] && [2, 1][..1] == [2] && [2, 1][1..] == [1];
    assert [2] + [1] == Dedup([2, 1]);
  }

  lemma SecondFeasible(store: BlockStore)
    requires store.Valid() && store.maxBytes == 4 && store.blockBytes == 1 && store.retired == 0 && forall k :: k in store.index <==> k == 1
    ensures Distinct(store.order) && Feasible(4, 1, store.Now(), [2], [1])
  {
    hide Dedup, Stored, Reclaimable, Pinned, Recorded;
    TwoKeys(store.index);
    assert !Overlaps(store.Now(), [2]);
    if |store.slots| == 4 {
      var i := if store.index[1] == 0 then 1 else 0;
      assert i in store.free;
    }
  }

  lemma SecondLease(s1: Snapshot, s2: Snapshot, held: seq<Handle>)
    requires Reserved(4, 1, 0, s1, s2, [2], [1], held) && Distinct(s1.order) && forall k :: k in s1.index <==> k == 1
    ensures |held| == 2 && s2.open == s1.open + multiset{held[0], held[1]} && Undisturbed(s1, s2, 1)
    ensures HandleFor(s2.slots, s2.index, 0, 1, held[0]) && HandleFor(s2.slots, s2.index, 0, 2, held[1])
  {
    hide Dedup, Stored, Growth, Undisturbed, Evictable, Names;
    TwoKeys(s1.index);
    EvictableMembers(s1.order, s1.slots, s1.index, Protected([2], [1]));
    assert Leased(s1, [2], [1]) == [1, 2];
    assert held == [held[0], held[1]];
  }

  /** A lease that protects a block still being written cannot be closed before that block's own
      lease: it fails on that block, and the pin on its other block is left behind for good. */
  method PinLeftBehind() returns (first: bool, second: bool, left: nat)
    ensures !first && second && left == 1
  {
    hide *;
    var store := new BlockStore(4, 1, 1, false);
    FirstFeasible();
    NowIs(store);
    var r1 := store.Reserve([1], []);
    ghost var s1 := store.Now();
    FirstLease(Snapshot([], [], [], map[], 0, 0, multiset{}), s1, r1.value.held);
    NowIs(store);
    SecondFeasible(store);
    var r2 := store.Reserve([2], [1]);
    NowIs(store);
    SecondLease(s1, store.Now(), r2.value.held);
    ghost var h, h' := r1.value.held[0], r2.value.held[1];
    SameHandle(s1, store.Now(), h, r2.value.held[0]);
    BothHeld(store, h, h', r2.value.held);
    first := store.Close(r2.value);
    OneLeft(store, h, h', r1.value.held);
    second := store.Close(r1.value);
    store.StillWriting(h');
    left := store.slots[r2.value.held[1].slot].pins;
  }

  lemma NowIs(store: BlockStore)
    ensures store.Now().index == store.index && store.Now().open == store.open && store.Now().order == store.order && store.Now().slots == store.slots
    ensures store.Now().used == |store.slots| + store.retired
  {
  }

  lemma BothHeld(store: BlockStore, h: Handle, h': Handle, held: seq<Handle>)
    requires store.Valid() && store.open == multiset{h} + multiset{h, h'} && store.written == map[]
    requires held == [h, h'] && Distinct(held)
    ensures multiset(held) <= store.open && Contended(store.slots, h) && GivenBack(store.slots, held) == 1
    ensures store.open - multiset(held[..1]) == multiset{h, h'} && h != h'
  {
    hide Sound, Linked;
    assert held[0] != held[1];
    store.StillWriting(h);
  }

  lemma OneLeft(store: BlockStore, h: Handle, h': Handle, held: seq<Handle>)
    requires store.Valid() && store.open == multiset{h, h'} && h != h' && store.written == map[] && held == [h]
    ensures multiset(held) <= store.open && Distinct(held) && !Contended(store.slots, h) && GivenBack(store.slots, held) == 1
    ensures store.open - multiset(held[..1]) == multiset{h'} && forall x :: x in held ==> x == h
  {
    hide Sound, Linked;
    store.StillWriting(h);
    GivenBackAll(store.slots, held);
  }

  lemma SameHandle(s1: Snapshot, s2: Snapshot, h: Handle, h': Handle)
    requires HandleFor(s1.slots, s1.index, 0, 1, h) && HandleFor(s2.slots, s2.index, 0, 1, h') && Undisturbed(s1, s2, 1)
    ensures h == h'
  {
  }

  /** Committed blocks keep everything but their pins, and no key moves. */
  ghost predicate Survives(slots: seq<Slot>, index: map<Key, nat>, slots': seq<Slot>, index': map<Key, nat>) {
    && |slots'| == |slots|
    && (forall i :: 0 <= i < |slots| && slots[i].state == Ready ==> slots'[i] == slots[i].(pins := slots'[i].pins))
    && (forall k :: k in index' ==> k in index && index'[k] == index[k])
  }

  lemma SurvivesRefl(slots: seq<Slot>, index: map<Key, nat>)
    ensures Survives(slots, index, slots, index)
  {
  }

  lemma SurvivesUnpin(slots: seq<Slot>, index: map<Key, nat>, i: nat)
    requires i < |slots| && slots[i].pins >= 1
    ensures var s := slots[i].(pins := slots[i].pins - 1);
      && Survives(slots, index, slots[i := s], index)
      && (s.state != Ready ==> forall k :: Survives(slots, index, slots[i := Emptied(s)], index - {k}))
  {
  }

  lemma SurvivesTrans(slots: seq<Slot>, index: map<Key, nat>, slots1: seq<Slot>, index1: map<Key, nat>, slots2: seq<Slot>, index2: map<Key, nat>)
    requires Survives(slots, index, slots1, index1) && Survives(slots1, index1, slots2, index2)
    ensures Survives(slots, index, slots2, index2)
  {
  }

  /** An all-free store under a new epoch. */
  lemma ResetSound(slots: seq<Slot>, free: seq<nat>, order: seq<Key>, index: map<Key, nat>, epoch: nat, open: multiset<Handle>,
                   issued: map<Handle, Key>, written: map<Handle, Contents>, slots': seq<Slot>)
    requires Sound(slots, free, order, index, epoch, open, issued, written)
    requires forall i :: 0 <= i < |slots'| ==> slots'[i].state == Free && slots'[i].key == None && slots'[i].pins == 0
    ensures Sound(slots', Indices(0, |slots'|), [], map[], epoch + 1, multiset{}, issued, written)
  {
    AllIndices(|slots'|);
  }

  lemma StillHeld(open: multiset<Handle>, held: seq<Handle>, j: nat)
    requires multiset(held) <= open && j < |held|
    ensures held[j] in open - multiset(held[..j])
    ensures open - multiset(held[..j + 1]) == (open - multiset(held[..j])) - multiset{held[j]}
  {
    assert held == held[..j + 1] + held[j + 1..];
    assert held[..j + 1] == held[..j] + [held[j]];
  }

  lemma AllIndices(n: nat)
    ensures Distinct(Indices(0, n)) && forall i: nat :: i in Indices(0, n) <==> i < n
  {
    forall i: nat | i < n
      ensures i in Indices(0, n)
    {
      assert Indices(0, n)[i] == i;
    }
  }

  // ----- transfer runs -----

  predicate Adjacent(a: Slot, b: Slot) {
    b.slab == a.slab && b.offset == a.offset + 1
  }

  /** A nonempty list of stored keys whose blocks lie next to each other in one slab. */
  ghost predicate IsRun(slots: seq<Slot>, index: map<Key, nat>, run: seq<Key>) {
    && run != [] && (forall j :: 0 <= j < |run| ==> run[j] in index && index[run[j]] < |slots|)
    && forall j :: 0 <= j < |run| ==>
         && slots[index[run[j]]].slab == slots[index[run[0]]].slab
         && slots[index[run[j]]].offset == slots[index[run[0]]].offset + j
  }

  function Joined(runs: seq<seq<Key>>): seq<Key> {
    if runs == [] then [] else Joined(runs[..|runs| - 1]) + runs[|runs| - 1]
  }

  lemma JoinedNothing()
    ensures Joined([]) == []
  {
  }

  lemma JoinedMore(runs: seq<seq<Key>>, run: seq<Key>)
    ensures Joined(runs + [run]) == Joined(runs) + run
  {
    assert (runs + [run])[..|runs|] == runs;
  }

  lemma Associates(a: seq<Key>, b: seq<Key>, k: Key)
    ensures a + (b + [k]) == (a + b) + [k]
  {
  }

  lemma JoinedLast(runs: seq<seq<Key>>, k: Key)
    requires runs != []
    ensures Joined(runs[..|runs| - 1] + [runs[|runs| - 1] + [k]]) == Joined(runs) + [k]
  {
    hide Joined;
    var init, last := runs[..|runs| - 1], runs[|runs| - 1];
    assert runs == init + [last];
    JoinedMore(init, last);
    JoinedMore(init, last + [k]);
    Associates(Joined(init), last, k);
  }

  lemma RunShape(slots: seq<Slot>, index: map<Key, nat>, run: seq<Key>)
    requires IsRun(slots, index, run)
    ensures run != [] && run[|run| - 1] in index && index[run[|run| - 1]] < |slots|
  {
  }

  lemma SingleRun(slots: seq<Slot>, index: map<Key, nat>, k: Key)
    requires k in index && index[k] < |slots|
    ensures IsRun(slots, index, [k])
  {
  }

  lemma RunGrows(slots: seq<Slot>, index: map<Key, nat>, run: seq<Key>, k: Key)
    requires IsRun(slots, index, run) && k in index && index[k] < |slots|
    requires Adjacent(slots[index[run[|run| - 1]]], slots[index[k]])
    ensures IsRun(slots, index, run + [k])
  {
  }

  ghost predicate InOneStretch(slots: seq<Slot>, epoch: nat, handles: seq<Handle>)
    requires handles != []
  {
    && (forall j :: 0 <= j < |handles| ==> Names(slots, epoch, handles[j]))
    && forall j :: 0 <= j < |handles| ==>
         && slots[handles[j].slot].slab == slots[handles[0].slot].slab
         && slots[handles[j].slot].offset == slots[handles[0].slot].offset + j
  }

  /** A run's own handles are always accepted by `view`. */
  lemma RunsAreViewable(slots: seq<Slot>, index: map<Key, nat>, epoch: nat, run: seq<Key>, handles: seq<Handle>)
    requires IsRun(slots, index, run) && HandlesFor(slots, index, epoch, run, handles)
    ensures handles != [] && InOneStretch(slots, epoch, handles)
  {
    forall j | 0 <= j < |handles|
      ensures Names(slots, epoch, handles[j]) && handles[j].slot == index[run[j]]
    {
      assert HandleFor(slots, index, epoch, run[j], handles[j]);
    }
  }

  lemma HandlesSize(slots: seq<Slot>, index: map<Key, nat>, epoch: nat, keys: seq<Key>, held: seq<Handle>)
    requires HandlesFor(slots, index, epoch, keys, held)
    ensures |keys| == |held|
  {
  }

  lemma PinsSize(slots: seq<Slot>, index: map<Key, nat>, keys: seq<Key>, slots': seq<Slot>)
    requires PinsEach(slots, index, keys, slots')
    ensures |slots'| == |slots|
  {
  }

  lemma EvictsShape(slots: seq<Slot>, order: seq<Key>, index: map<Key, nat>, victims: seq<Key>,
                    slots': seq<Slot>, order': seq<Key>, index': map<Key, nat>)
    requires Evicts(slots, order, index, victims, slots', order', index')
    ensures |slots'| == |slots| && order' == Remove(order, victims)
    ensures forall k :: k in index' <==> k in index && k !in victims
  {
  }

  lemma SoundEvictable(slots: seq<Slot>, free: seq<nat>, order: seq<Key>, index: map<Key, nat>,
                       epoch: nat, open: multiset<Handle>, issued: map<Handle, Key>, written: map<Handle, Contents>, protected: set<Key>)
    requires Sound(slots, free, order, index, epoch, open, issued, written)
    ensures Reclaimable(slots, protected) == |Evictable(order, slots, index, protected)|
  {
    hide Linked, Pinned, Recorded;
    ReclaimableIsEvictable(slots, free, order, index, protected);
  }

  lemma NothingTaken(slots: seq<Slot>, index: map<Key, nat>, epoch: nat, free: seq<nat>)
    requires Descending(free) && forall k :: k in index ==> index[k] < |slots|
    ensures Took(slots, index, slots, index, epoch, [], [], free)
  {
  }

  lemma TookKeys(slots: seq<Slot>, index: map<Key, nat>, slots': seq<Slot>, index': map<Key, nat>, epoch: nat,
                 keys: seq<Key>, held: seq<Handle>, free: seq<nat>)
    requires Took(slots, index, slots', index', epoch, keys, held, free)
    ensures forall k :: k in index' <==> k in index || k in keys
  {
  }

  lemma NothingPinned(slots: seq<Slot>, index: map<Key, nat>, epoch: nat)
    ensures PinsEach(slots, index, [], slots) && HandlesFor(slots, index, epoch, [], [])
  {
  }

  lemma DistinctNext(keys: seq<Key>, j: nat)
    requires Distinct(keys) && j < |keys|
    ensures keys[j] in keys && keys[j] !in keys[..j] && keys[..j + 1] == keys[..j] + [keys[j]]
  {
  }

  lemma NothingEvicted(slots: seq<Slot>, order: seq<Key>, index: map<Key, nat>)
    ensures Evicts(slots, order, index, [], slots, order, index)
  {
    assert index - (set k: Key | k in []) == index;
  }

  lemma EvictableOne(k: Key, slots: seq<Slot>, index: map<Key, nat>, protected: set<Key>)
    ensures Evictable([k], slots, index, protected)
         == if k !in protected && k in index && index[k] < |slots| && slots[index[k]].pins == 0 then [k] else []
  {
    assert [k][1..] == [];
  }

  lemma EvictableNone(slots: seq<Slot>, index: map<Key, nat>, protected: set<Key>)
    ensures Evictable([], slots, index, protected) == []
  {
  }

  lemma NextVictim(order: seq<Key>, i: nat, slots: seq<Slot>, index: map<Key, nat>, protected: set<Key>)
    requires Distinct(order) && i < |order| && order[i] in index && index[order[i]] < |slots|
    ensures order[i] in order && order[i] !in Evictable(order[..i], slots, index, protected)
    ensures Evictable(order[..i + 1], slots, index, protected)
         == Evictable(order[..i], slots, index, protected)
          + (if order[i] !in protected && slots[index[order[i]]].pins == 0 then [order[i]] else [])
  {
    DistinctNext(order, i);
    EvictableMembers(order[..i], slots, index, protected);
    EvictableConcat(order[..i], order[i], slots, index, protected);
    EvictableOne(order[i], slots, index, protected);
  }

  lemma DescendingDistinct(s: seq<nat>)
    requires Descending(s)
    ensures Distinct(s)
  {
  }
}

/** Reclaiming a group of parked sessions: host room for all of them is reserved before the first
    copy, then they are saved in order until enough blocks are free. */
module Groups {
  import opened Kv
  import opened BlockPool
  import opened Requests
  import opened ScheduleInv
  import opened Geometry
  import opened Transfer
  import opened Offload

  /** The reservation made for one member. */
  datatype Hold = Hold(id: nat, bytes: nat)

  /** A reclaim in progress: `reserved` is what its open reservations ask for. */
  datatype Group = Group(t: Tiered, reserved: nat, committed: seq<nat>, failed: bool)

  function SaveBytes(h: HostConfig, t: Tiered, k: nat): nat
    requires k < |t.s.reqs| && t.s.pool.bs >= 1
  {
    BlockBytes(h, BlocksNeededFor(t.s.reqs[k].computed, t.s.pool.bs))
  }

  function Total(holds: seq<Hold>): nat {
    if holds == [] then 0 else holds[0].bytes + Total(holds[1..])
  }

  /** `_metadata` for every member: an id each, until one cannot be described. */
  ghost function Described(h: HostConfig, t: Tiered, group: seq<nat>, id: nat): (nat, Option<seq<Hold>>)
    decreases |group|
  {
    if group == [] then (id, Some([]))
    else if !Savable(t, group[0]) then (id, None)
    else
      var (next, rest) := Described(h, t, group[1..], id + 1);
      (next, if rest.None? then None else Some([Hold(id, SaveBytes(h, t, group[0]))] + rest.value))
  }

  /** `prepare_group`: snapshots are evicted until the whole group fits, or nothing is. */
  ghost function Prepare(h: HostConfig, t: Tiered, group: seq<nat>): (Tiered, Option<seq<Hold>>) {
    var (next, holds) := Described(h, t, group, t.nextId);
    var t1 := t.(nextId := if next >= t.nextId then next else t.nextId);
    if holds.None? || Total(holds.value) > h.maxBytes then (t1, None)
    else (MakeRoom(h, t1, Total(holds.value)), holds)
  }

  /** `save` of a member under its reservation; a failed copy gives the reservation back. */
  ghost function SaveHeld(h: HostConfig, g: Group, k: nat, hold: Hold, copyFails: bool): Group {
    var t := g.t;
    if k >= |t.s.reqs| || t.s.reqs[k].status != Paused then g.(failed := true)
    else if t.s.reqs[k].residency == OnCpu && t.s.reqs[k].snapshot.Some? then
      if Find(t.books.snaps, k).Some? then g.(committed := g.committed + [k]) else g.(failed := true)
    else if !Savable(t, k) then g.(failed := true)
    else
      var t1 := t.(nextId := t.nextId + 1);
      var reserved := if g.reserved >= hold.bytes then g.reserved - hold.bytes else 0;
      if copyFails then Group(t1, reserved, g.committed, true)
      else Group(SaveAs(h, t1, k, hold.id), reserved, g.committed + [k], false)
  }

  /** `reclaim_cached_blocks`. */
  function ReclaimCached(t: Tiered, minFree: nat): Tiered {
    t.(s := t.s.(pool := EvictUnused(t.s.pool, minFree - |t.s.pool.free|)))
  }

  /** The members in order, until the goal is met or one fails; what is committed stands. */
  ghost function SaveMembers(h: HostConfig, g: Group, group: seq<nat>, holds: seq<Hold>, minFree: nat, fails: set<nat>): Group
    decreases |group|
  {
    if group == [] || holds == [] then g
    else
      var g1 := SaveHeld(h, g, group[0], holds[0], group[0] in fails);
      if g1.failed then g1
      else
        var g2 := g1.(t := ReclaimCached(g1.t, minFree));
        if |g2.t.s.pool.free| >= minFree then g2 else SaveMembers(h, g2, group[1..], holds[1..], minFree, fails)
  }

  /** `reclaim_group`; closing the group gives back every reservation that is still open. */
  ghost function ReclaimGroup(h: HostConfig, t: Tiered, group: seq<nat>, minFree: nat, fails: set<nat>): Group {
    var (t1, holds) := Prepare(h, t, group);
    if holds.None? then Group(t1, 0, [], true)
    else SaveMembers(h, Group(t1, Total(holds.value), [], false), group, holds.value, minFree, fails).(reserved := 0)
  }

  // ----- what is still to be saved has its room and its id -----

  ghost predicate Ascending(holds: seq<Hold>) {
    forall i, j :: 0 <= i < j < |holds| ==> holds[i].id < holds[j].id
  }

  ghost predicate Ahead(t: Tiered, holds: seq<Hold>) {
    forall i :: 0 <= i < |holds| ==> holds[i].id < t.nextId && forall x :: x in t.books.snaps ==> x.id < holds[i].id
  }

  ghost predicate Sized(h: HostConfig, t: Tiered, group: seq<nat>, holds: seq<Hold>)
    requires t.s.pool.bs >= 1
  {
    && |holds| == |group|
    && forall i :: 0 <= i < |group| ==>
         group[i] < |t.s.reqs| && (t.s.reqs[group[i]].residency != OnCpu ==> holds[i].bytes == SaveBytes(h, t, group[i]))
  }

  ghost predicate Exact(h: HostConfig, t: Tiered, group: seq<nat>, holds: seq<Hold>)
    requires t.s.pool.bs >= 1
  {
    |holds| == |group| && forall i :: 0 <= i < |group| ==> group[i] < |t.s.reqs| && holds[i].bytes == SaveBytes(h, t, group[i])
  }

  ghost predicate Booked(h: HostConfig, g: Group, group: seq<nat>, holds: seq<Hold>) {
    && g.t.s.pool.bs >= 1 && Ascending(holds) && Ahead(g.t, holds) && Sized(h, g.t, group, holds)
    && Total(holds) <= g.reserved && Stored(h, g.t.books.snaps) + g.reserved <= h.maxBytes
  }

  lemma {:induction false} DescribedMeaning(h: HostConfig, t: Tiered, group: seq<nat>, id: nat)
    requires t.s.pool.bs >= 1
    ensures var (next, holds) := Described(h, t, group, id);
      && next >= id
      && (holds.Some? ==>
            && Ascending(holds.value) && Exact(h, t, group, holds.value)
            && forall i :: 0 <= i < |holds.value| ==> id <= holds.value[i].id < next)
    decreases |group|
  {
    hide BlocksNeededFor, InPool, Savable, BlockBytes;
    if group != [] && Savable(t, group[0]) {
      SavableSize(t, group[0]);
      DescribedMeaning(h, t, group[1..], id + 1);
      var (next, rest) := Described(h, t, group[1..], id + 1);
      if rest.Some? {
        var holds := [Hold(id, SaveBytes(h, t, group[0]))] + rest.value;
        forall i, j | 0 <= i < j < |holds|
          ensures holds[i].id < holds[j].id
        {
        }
        forall i | 0 <= i < |group|
          ensures group[i] < |t.s.reqs| && holds[i].bytes == SaveBytes(h, t, group[i])
        {
          assert i > 0 ==> group[i] == group[1..][i - 1];
        }
      }
    }
  }

  lemma SavableSize(t: Tiered, k: nat)
    requires Savable(t, k)
    ensures k < |t.s.reqs| && t.s.pool.bs >= 1
  {
  }

  /** The members are untouched by the evictions that make room for them. */
  lemma PreparedBooked(net: Net, h: HostConfig, t: Tiered, group: seq<nat>)
    requires TierInv(net, h, t) && t.s.pool.bs >= 1
    ensures var (t1, holds) := Prepare(h, t, group);
      && TierInv(net, h, t1) && t1.s.pool == t.s.pool && t1.s.mem == t.s.mem && t1.weights == t.weights && t1.nextId >= t.nextId
      && t1.s.waiting == t.s.waiting && t1.s.running == t.s.running
      && AllEvicted(t.s.reqs, t1.s.reqs) && (forall x :: x in t1.books.snaps ==> x in t.books.snaps)
      && t1.books.written == t.books.written
      && (holds.Some? ==> From(holds.value, t.nextId) && Booked(h, Group(t1, Total(holds.value), [], false), group, holds.value))
  {
    hide TierInv, Described, MakeRoom, Stored, BlocksNeededFor, BlockBytes, Ascending, Evicted;
    var (next, holds) := Described(h, t, group, t.nextId);
    DescribedMeaning(h, t, group, t.nextId);
    NextIdTo(net, h, t, next);
    EvictedRefl(t.s.reqs);
    if holds.Some? && Total(holds.value) <= h.maxBytes {
      var t1 := t.(nextId := next);
      MakeRoomInv(net, h, t1, Total(holds.value));
      MakeRoomQuiet(net, h, t1, Total(holds.value));
      MakeRoomWritten(h, t1, Total(holds.value));
      var t2 := MakeRoom(h, t1, Total(holds.value));
      SizedEvicted(h, t, t2, group, holds.value);
      forall x | x in t2.books.snaps
        ensures x.id < t.nextId
      {
        TierSnapIds(net, h, t, x);
      }
    }
  }

  lemma TierSnapIds(net: Net, h: HostConfig, t: Tiered, x: Snap)
    requires TierInv(net, h, t) && x in t.books.snaps
    ensures x.id < t.nextId
  {
    hide SysInv, Stored, Balanced, UsesGood;
    SnapIds(net, t, x);
  }

  lemma NextIdTo(net: Net, h: HostConfig, t: Tiered, next: nat)
    requires TierInv(net, h, t) && next >= t.nextId
    ensures TierInv(net, h, t.(nextId := next))
  {
    hide SysInv, Stored, Balanced, Holds, BlocksNeededFor, Find;
    forall snap | snap in t.books.snaps
      ensures SnapGood(net, t.(nextId := next), snap)
    {
      SnapStays(net, t, t.(nextId := next), snap);
    }
  }

  lemma {:induction false} MakeRoomWritten(h: HostConfig, t: Tiered, bytes: nat)
    ensures MakeRoom(h, t, bytes).books.written == t.books.written
    ensures MakeRoom(h, t, bytes).s.waiting == t.s.waiting && MakeRoom(h, t, bytes).s.running == t.s.running
    decreases |t.books.snaps|
  {
    hide Stored;
    if t.books.snaps != [] && Stored(h, t.books.snaps) + bytes > h.maxBytes {
      DropSnapShrinks(h, t.books);
      MakeRoomWritten(h, EvictOldest(h, t), bytes);
    }
  }

  lemma SizedEvicted(h: HostConfig, t: Tiered, t': Tiered, group: seq<nat>, holds: seq<Hold>)
    requires t.s.pool.bs >= 1 && t'.s.pool == t.s.pool && AllEvicted(t.s.reqs, t'.s.reqs) && Exact(h, t, group, holds)
    ensures Sized(h, t', group, holds)
  {
    hide BlocksNeededFor, BlockBytes;
    forall i | 0 <= i < |group|
      ensures group[i] < |t'.s.reqs| && holds[i].bytes == SaveBytes(h, t', group[i])
    {
      assert Evicted(t.s.reqs[group[i]], t'.s.reqs[group[i]]);
    }
  }

  // ----- one member -----

  /** Exactly the listed requests moved to the host; no history or status changed. */
  ghost predicate Moved(t: Tiered, t': Tiered, ids: seq<nat>) {
    && |t'.s.reqs| == |t.s.reqs|
    && forall k: nat :: k < |t.s.reqs| ==>
         (if k in ids then OnHostNow(t.s.reqs[k], t'.s.reqs[k]) else t'.s.reqs[k] == t.s.reqs[k])
  }

  predicate OnHostNow(r: Req, r': Req) {
    r.status == Paused && r'.residency == OnCpu && SameSession(r, r')
  }

  /** The session is the same; only its KV may be elsewhere. */
  predicate SameSession(r: Req, r': Req) {
    r' == r.(table := r'.table, computed := r'.computed, scheduled := r'.scheduled, cached := r'.cached, published := r'.published,
             parent := r'.parent, epoch := r'.epoch, residency := r'.residency, snapshot := r'.snapshot)
  }

  lemma MovedNothing(t: Tiered, t': Tiered)
    requires t'.s.reqs == t.s.reqs
    ensures Moved(t, t', [])
  {
  }

  lemma MovedMore(a: Tiered, b: Tiered, c: Tiered, k: nat, ids: seq<nat>)
    requires Moved(a, b, [k]) && Moved(b, c, ids)
    ensures Moved(a, c, [k] + ids)
  {
    hide SameSession;
    forall j: nat | j < |a.s.reqs|
      ensures if j in [k] + ids then OnHostNow(a.s.reqs[j], c.s.reqs[j]) else c.s.reqs[j] == a.s.reqs[j]
    {
      if j == k && j in ids {
        SameSessionTrans(a.s.reqs[j], b.s.reqs[j], c.s.reqs[j]);
      }
    }
  }

  lemma SameSessionTrans(a: Req, b: Req, c: Req)
    requires SameSession(a, b) && SameSession(b, c)
    ensures SameSession(a, c)
  {
  }

  ghost predicate Kept(t: Tiered, t': Tiered) {
    && SameFrame(t.s.pool, t'.s.pool) && t'.weights == t.weights && t'.nextId >= t.nextId && t'.s.mem == t.s.mem
    && t'.s.waiting == t.s.waiting && t'.s.running == t.s.running
  }

  /** Whatever is registered anew carries the engine's marks and an id of its own. */
  ghost predicate NewSnaps(t: Tiered, t': Tiered, base: nat) {
    forall x :: x in t'.books.snaps ==>
      x in t.books.snaps || (x.id >= base && x.weights == t.weights && x.epoch == t.s.pool.epoch && x.bs == t.s.pool.bs)
  }

  lemma NewSnapsTrans(a: Tiered, b: Tiered, c: Tiered, base: nat)
    requires NewSnaps(a, b, base) && NewSnaps(b, c, base) && Kept(a, b)
    ensures NewSnaps(a, c, base)
  {
  }

  ghost predicate From(holds: seq<Hold>, base: nat) {
    forall i :: 0 <= i < |holds| ==> holds[i].id >= base
  }

  ghost predicate MemberOutcome(net: Net, h: HostConfig, g: Group, g': Group, k: nat, base: nat) {
    && NewSnaps(g.t, g'.t, base)
    && TierInv(net, h, g'.t) && Kept(g.t, g'.t) && Stored(h, g'.t.books.snaps) + g'.reserved <= h.maxBytes
    && (if g'.failed then g'.committed == g.committed && Moved(g.t, g'.t, []) else g'.committed == g.committed + [k] && Moved(g.t, g'.t, [k]))
  }

  lemma BookedHead(h: HostConfig, g: Group, group: seq<nat>, holds: seq<Hold>)
    requires Booked(h, g, group, holds) && group != []
    ensures holds != [] && group[0] < |g.t.s.reqs| && g.t.s.pool.bs >= 1 && holds[0].bytes <= g.reserved && holds[0].id < g.t.nextId
    ensures Total(holds[1..]) == Total(holds) - holds[0].bytes && Total(holds) <= g.reserved && Stored(h, g.t.books.snaps) + g.reserved <= h.maxBytes
    ensures g.t.s.reqs[group[0]].residency != OnCpu ==> holds[0].bytes == SaveBytes(h, g.t, group[0])
    ensures forall x :: x in g.t.books.snaps ==> x.id < holds[0].id
  {
    hide BlocksNeededFor, BlockBytes, Stored;
  }

  /** The rest stays booked when only the head's KV, and its own id, are used up. */
  lemma BookedRest(h: HostConfig, g: Group, g': Group, group: seq<nat>, holds: seq<Hold>)
    requires Booked(h, g, group, holds) && group != [] && |g'.t.s.reqs| == |g.t.s.reqs| && g'.t.s.pool.bs == g.t.s.pool.bs
    requires forall k: nat :: k < |g.t.s.reqs| && k != group[0] ==> g'.t.s.reqs[k] == g.t.s.reqs[k]
    requires group[0] < |g'.t.s.reqs| && g'.t.s.reqs[group[0]].residency == OnCpu && g'.t.nextId >= g.t.nextId
    requires forall x :: x in g'.t.books.snaps ==> x in g.t.books.snaps || x.id == holds[0].id
    requires Total(holds[1..]) <= g'.reserved && Stored(h, g'.t.books.snaps) + g'.reserved <= h.maxBytes
    ensures Booked(h, g', group[1..], holds[1..])
  {
    hide BlocksNeededFor, BlockBytes, Stored, Total;
    var rest, later := group[1..], holds[1..];
    forall i | 0 <= i < |later|
      ensures later[i].id < g'.t.nextId && forall x :: x in g'.t.books.snaps ==> x.id < later[i].id
    {
      assert later[i] == holds[i + 1] && holds[0].id < holds[i + 1].id;
    }
    forall i | 0 <= i < |rest|
      ensures rest[i] < |g'.t.s.reqs| && (g'.t.s.reqs[rest[i]].residency != OnCpu ==> later[i].bytes == SaveBytes(h, g'.t, rest[i]))
    {
      assert rest[i] == group[i + 1] && later[i] == holds[i + 1];
    }
    assert forall i, j :: 0 <= i < j < |later| ==> later[i].id < later[j].id by {
      assert forall i :: 0 <= i < |later| ==> later[i] == holds[i + 1];
    }
  }

  lemma SavedShape(h: HostConfig, t: Tiered, k: nat, id: nat)
    requires Savable(t, k) && t.s.reqs[k].status == Paused
    ensures var t' := SaveAs(h, t, k, id);
      && Moved(t, t', [k]) && Kept(t, t') && t'.nextId == t.nextId && t'.s.reqs[k].residency == OnCpu
      && forall x :: x in t'.books.snaps ==>
           x in t.books.snaps || (x.id == id && x.weights == t.weights && x.epoch == t.s.pool.epoch && x.bs == t.s.pool.bs)
  {
    hide DecrefAll, Exported, BlocksNeededFor, InPool, BlockBytes;
    DecrefAllFrame(t.s.pool, t.s.reqs[k].table);
  }

  lemma KeptSize(t: Tiered, t': Tiered)
    requires Kept(t, t')
    ensures t'.s.pool.bs == t.s.pool.bs && t'.nextId >= t.nextId
  {
  }

  lemma MovedElsewhere(t: Tiered, t': Tiered, k: nat)
    requires Moved(t, t', [k])
    ensures |t'.s.reqs| == |t.s.reqs| && forall j: nat :: j < |t.s.reqs| && j != k ==> t'.s.reqs[j] == t.s.reqs[j]
  {
    hide OnHostNow;
  }

  lemma SaveHeldInv(net: Net, h: HostConfig, g: Group, group: seq<nat>, holds: seq<Hold>, copyFails: bool, base: nat)
    requires From(holds, base)
    requires TierInv(net, h, g.t) && group != [] && Booked(h, g, group, holds) && !g.failed
    ensures holds != []
    ensures var g' := SaveHeld(h, g, group[0], holds[0], copyFails);
      MemberOutcome(net, h, g, g', group[0], base) && (!g'.failed ==> Booked(h, g', group[1..], holds[1..]))
  {
    hide TierInv, Booked, Savable, SaveAs, Stored, Moved, Kept, Total, BlocksNeededFor, BlockBytes, Find;
    BookedHead(h, g, group, holds);
    var t, k, hold := g.t, group[0], holds[0];
    var g' := SaveHeld(h, g, k, hold, copyFails);
    MovedNothing(t, t);
    KeptRefl(t);
    if t.s.reqs[k].status == Paused {
      ResidentIff(net, h, t, k);
      if t.s.reqs[k].residency == OnCpu {
        MovedHere(t, k);
        BookedRest(h, g, g', group, holds);
      } else if Savable(t, k) {
        var t1 := t.(nextId := t.nextId + 1);
        NextIdInv(net, h, t);
        KeptNext(t);
        if !copyFails {
          SavableNext(t);
          SaveCommits(net, h, t1, k, hold.id);
          SavedShape(h, t1, k, hold.id);
          var t2 := SaveAs(h, t1, k, hold.id);
          KeptSize(t1, t2);
          MovedFrom(t, t2, [k]);
          MovedElsewhere(t1, t2, k);
          BookedRest(h, g, g', group, holds);
        }
      }
    }
  }

  lemma KeptRefl(t: Tiered)
    ensures Kept(t, t)
  {
  }

  lemma KeptNext(t: Tiered)
    ensures Kept(t, t.(nextId := t.nextId + 1)) && Moved(t, t.(nextId := t.nextId + 1), [])
    ensures forall t' :: Kept(t.(nextId := t.nextId + 1), t') ==> Kept(t, t')
  {
  }

  lemma SavableNext(t: Tiered)
    ensures forall k: nat :: Savable(t.(nextId := t.nextId + 1), k) <==> Savable(t, k)
  {
    hide BlocksNeededFor, InPool;
  }

  lemma MovedFrom(t: Tiered, t2: Tiered, ids: seq<nat>)
    requires Moved(t.(nextId := t.nextId + 1), t2, ids)
    ensures Moved(t, t2, ids)
  {
    hide OnHostNow;
  }

  /** A member already on the host stays where it is. */
  lemma MovedHere(t: Tiered, k: nat)
    requires k < |t.s.reqs| && t.s.reqs[k].residency == OnCpu && t.s.reqs[k].status == Paused
    ensures Moved(t, t, [k])
  {
  }

  // ----- the whole group -----

  lemma CachedReclaimed(net: Net, h: HostConfig, t: Tiered, minFree: nat)
    requires TierInv(net, h, t)
    ensures var t' := ReclaimCached(t, minFree);
      && TierInv(net, h, t') && Kept(t, t') && t'.s.reqs == t.s.reqs && t'.books == t.books && t'.nextId == t.nextId
  {
    hide SysInv, Stored, Balanced, EvictUnused, Find, Holds, BlocksNeededFor;
    TierSys(net, h, t);
    EvictSys(net, t.s, minFree - |t.s.pool.free|);
    EvictFrame(t.s.pool, minFree - |t.s.pool.free|);
    var t' := ReclaimCached(t, minFree);
    forall snap | snap in t'.books.snaps
      ensures SnapGood(net, t', snap)
    {
      SnapOwner(net, t, snap);
      SnapStays(net, t, t', snap);
    }
  }

  lemma BookedSame(h: HostConfig, g: Group, g': Group, group: seq<nat>, holds: seq<Hold>)
    requires Booked(h, g, group, holds) && g' == g.(t := g'.t)
    requires g'.t.s.reqs == g.t.s.reqs && g'.t.books == g.t.books && g'.t.nextId == g.t.nextId && g'.t.s.pool.bs == g.t.s.pool.bs
    ensures Booked(h, g', group, holds)
  {
    hide Stored, Total, BlocksNeededFor, BlockBytes;
  }

  lemma KeptTrans(a: Tiered, b: Tiered, c: Tiered)
    requires Kept(a, b) && Kept(b, c)
    ensures Kept(a, c)
  {
  }

  /** What saving the members in order comes to: the committed ones, a prefix of the group, are
      exactly the requests that moved; it ends early only by reaching the goal or by a failure;
      and at no point do stored and reserved bytes together exceed the budget. */
  ghost predicate MembersOutcome(net: Net, h: HostConfig, g: Group, g': Group, group: seq<nat>, minFree: nat, n: nat, base: nat) {
    && NewSnaps(g.t, g'.t, base)
    && TierInv(net, h, g'.t) && Kept(g.t, g'.t) && Stored(h, g'.t.books.snaps) + g'.reserved <= h.maxBytes
    && n <= |group| && g'.committed == g.committed + group[..n] && Moved(g.t, g'.t, group[..n])
    && (g'.failed ==> n < |group|) && (!g'.failed && n < |group| ==> |g'.t.s.pool.free| >= minFree)
  }

  lemma {:induction false} SaveMembersInv(net: Net, h: HostConfig, g: Group, group: seq<nat>, holds: seq<Hold>, minFree: nat, fails: set<nat>, base: nat)
    returns (n: nat)
    requires From(holds, base)
    requires TierInv(net, h, g.t) && Booked(h, g, group, holds) && !g.failed
    ensures MembersOutcome(net, h, g, SaveMembers(h, g, group, holds, minFree, fails), group, minFree, n, base)
    decreases |group|
  {
    hide TierInv, Booked, SaveHeld, Stored, Moved, Kept, ReclaimCached;
    KeptRefl(g.t);
    MovedNothing(g.t, g.t);
    BookedRoom(h, g, group, holds);
    n := 0;
    assert g.committed + group[..0] == g.committed;
    if group != [] {
      SaveHeldInv(net, h, g, group, holds, group[0] in fails, base);
      var g1 := SaveHeld(h, g, group[0], holds[0], group[0] in fails);
      if !g1.failed {
        n := 1;
        assert group[..1] == [group[0]];
        CachedReclaimed(net, h, g1.t, minFree);
        var g2 := g1.(t := ReclaimCached(g1.t, minFree));
        KeptTrans(g.t, g1.t, g2.t);
        KeptSize(g1.t, g2.t);
        MovedTo(g.t, g1.t, g2.t, [group[0]]);
        if |g2.t.s.pool.free| < minFree {
          BookedSame(h, g1, g2, group[1..], holds[1..]);
          var m := SaveMembersInv(net, h, g2, group[1..], holds[1..], minFree, fails, base);
          JoinMembers(net, h, g, g2, SaveMembers(h, g2, group[1..], holds[1..], minFree, fails), group, minFree, m, base);
          n := m + 1;
        }
      }
    }
  }

  lemma MovedTo(a: Tiered, b: Tiered, c: Tiered, ids: seq<nat>)
    requires Moved(a, b, ids) && c.s.reqs == b.s.reqs
    ensures Moved(a, c, ids)
  {
    hide OnHostNow;
  }

  lemma BookedRoom(h: HostConfig, g: Group, group: seq<nat>, holds: seq<Hold>)
    requires Booked(h, g, group, holds)
    ensures Stored(h, g.t.books.snaps) + g.reserved <= h.maxBytes && (group == [] <==> holds == [])
  {
    hide Stored, Total, BlocksNeededFor, BlockBytes;
  }

  lemma JoinMembers(net: Net, h: HostConfig, g: Group, g2: Group, g': Group, group: seq<nat>, minFree: nat, m: nat, base: nat)
    requires NewSnaps(g.t, g2.t, base)
    requires group != [] && Kept(g.t, g2.t) && Moved(g.t, g2.t, [group[0]]) && g2.committed == g.committed + [group[0]]
    requires MembersOutcome(net, h, g2, g', group[1..], minFree, m, base)
    ensures MembersOutcome(net, h, g, g', group, minFree, m + 1, base)
  {
    hide TierInv, Stored, Moved, Kept, NewSnaps;
    NewSnapsTrans(g.t, g2.t, g'.t, base);
    KeptTrans(g.t, g2.t, g'.t);
    MovedMore(g.t, g2.t, g'.t, group[0], group[1..][..m]);
    assert [group[0]] + group[1..][..m] == group[..m + 1];
    assert g.committed + [group[0]] + group[1..][..m] == g.committed + group[..m + 1];
  }

  /** What a group reclaim leaves.  A resident request is on the host afterwards exactly when it
      is among the committed ids; those are a prefix of the group, and all of it unless the goal
      was met or a member failed.  Only evicted snapshots are lost; no history changes. */
  ghost predicate GroupOutcome(t: Tiered, g: Group, group: seq<nat>, minFree: nat) {
    && |g.t.s.reqs| == |t.s.reqs| && g.committed <= group
    && (!g.failed ==> g.committed == group || |g.t.s.pool.free| >= minFree)
    && (forall k: nat :: k < |t.s.reqs| ==> SameSession(t.s.reqs[k], g.t.s.reqs[k]))
    && (forall k: nat :: k < |t.s.reqs| && t.s.reqs[k].residency != OnCpu ==>
          (g.t.s.reqs[k].residency == OnCpu <==> k in g.committed) && (k !in g.committed ==> g.t.s.reqs[k] == t.s.reqs[k]))
    && (forall k: nat :: k < |t.s.reqs| && t.s.reqs[k].status != Paused ==> g.t.s.reqs[k] == t.s.reqs[k])
  }

  lemma ReclaimGroupInv(net: Net, h: HostConfig, t: Tiered, group: seq<nat>, minFree: nat, fails: set<nat>)
    requires TierInv(net, h, t) && t.s.pool.bs >= 1
    ensures var g := ReclaimGroup(h, t, group, minFree, fails);
      TierInv(net, h, g.t) && Kept(t, g.t) && NewSnaps(t, g.t, t.nextId) && g.reserved == 0 && GroupOutcome(t, g, group, minFree)
  {
    hide TierInv, Booked, Stored, Moved, SaveMembers, Prepare, AllEvicted, Kept;
    PreparedBooked(net, h, t, group);
    var (t1, holds) := Prepare(h, t, group);
    KeptPrepared(t, t1);
    MovedNothing(t1, t1);
    if holds.Some? {
      var g0 := Group(t1, Total(holds.value), [], false);
      var n := SaveMembersInv(net, h, g0, group, holds.value, minFree, fails, t.nextId);
      var g := SaveMembers(h, g0, group, holds.value, minFree, fails);
      KeptTrans(t, t1, g.t);
      NewSnapsTrans(t, t1, g.t, t.nextId);
      assert [] + group[..n] == group[..n];
      GroupMoved(t, t1, g.t, group[..n]);
      assert n == |group| ==> group[..n] == group;
    } else {
      GroupMoved(t, t1, t1, []);
    }
  }

  lemma KeptPrepared(t: Tiered, t1: Tiered)
    requires t1.s.pool == t.s.pool && t1.s.mem == t.s.mem && t1.weights == t.weights && t1.nextId >= t.nextId
    requires t1.s.waiting == t.s.waiting && t1.s.running == t.s.running
    ensures Kept(t, t1)
  {
  }

  lemma GroupMoved(t: Tiered, t1: Tiered, t2: Tiered, ids: seq<nat>)
    requires AllEvicted(t.s.reqs, t1.s.reqs) && Moved(t1, t2, ids)
    ensures |t2.s.reqs| == |t.s.reqs|
    ensures forall k: nat :: k < |t.s.reqs| ==> SameSession(t.s.reqs[k], t2.s.reqs[k])
    ensures forall k: nat :: k < |t.s.reqs| && t.s.reqs[k].residency != OnCpu ==>
              (t2.s.reqs[k].residency == OnCpu <==> k in ids) && (k !in ids ==> t2.s.reqs[k] == t.s.reqs[k])
    ensures forall k: nat :: k < |t.s.reqs| && t.s.reqs[k].status != Paused ==> t2.s.reqs[k] == t.s.reqs[k]
  {
    forall k: nat | k < |t.s.reqs|
      ensures Evicted(t.s.reqs[k], t1.s.reqs[k]) && SameSession(t.s.reqs[k], t2.s.reqs[k])
    {
    }
  }
}

/** Reclaiming a group of parked sessions with the block backend: one reservation covers every
    block of every member, then they are saved in order until enough device blocks are free. */
module BlockReclaim {
  import opened Kv
  import opened BlockPool
  import opened Requests
  import opened ScheduleInv
  import opened Geometry
  import opened Transfer
  import opened BlockOffload
  import O = Offload
  import G = Groups

  datatype Group = Group(b: Blocks, committed: seq<nat>, failed: bool)

  /** `_manifest` for every member, until one cannot be described. */
  ghost function Described(b: Blocks, group: seq<nat>, id: nat): (nat, Option<seq<Manifest>>)
    decreases |group|
  {
    if group == [] then (id, Some([]))
    else if !Savable(b, group[0]) then (id, None)
    else
      var (next, rest) := Described(b, group[1..], id + 1);
      (next, if rest.None? then None else Some([ManifestOf(b, group[0], id)] + rest.value))
  }

  function AllKeys(ms: seq<Manifest>): set<HostKey> {
    if ms == [] then {} else KeysOf(ms[0]) + AllKeys(ms[1..])
  }

  function OldTails(b: Blocks, group: seq<nat>): set<HostKey> {
    if group == [] then {} else OldTail(b, group[0]) + OldTails(b, group[1..])
  }

  /** `prepare_group`: all of it is reserved, or nothing changes but the ids used up. */
  ghost function Prepare(b: Blocks, group: seq<nat>, evict: set<HostKey>): (Blocks, Option<seq<Manifest>>) {
    var (next, ms) := Described(b, group, b.nextId);
    var b1 := b.(nextId := if next >= b.nextId then next else b.nextId);
    if ms.None? then (b1, None)
    else
      match ReserveKeys(b1, AllKeys(ms.value), OldTails(b, group), evict)
      case None => (b1, None)
      case Some(b2) => (b2, ms)
  }

  /** `save` of a member under the group's reservation. */
  ghost function SaveHeld(g: Group, k: nat, m: Manifest, reached: nat): Group {
    var b := g.b;
    if k >= |b.s.reqs| || b.s.reqs[k].status != Paused then g.(failed := true)
    else if b.s.reqs[k].table == [] && k in b.manifests then g.(committed := g.committed + [k])
    else if !Savable(b, k) then g.(failed := true)
    else
      var (b', result) := SaveMember(b, k, m.id, reached);
      if result == Saved then Group(b', g.committed + [k], false) else Group(b', g.committed, true)
  }

  function ReclaimCached(b: Blocks, minFree: nat): Blocks {
    b.(s := b.s.(pool := EvictUnused(b.s.pool, minFree - |b.s.pool.free|)))
  }

  function ReachOf(reached: map<nat, nat>, k: nat, m: Manifest): nat {
    if k in reached then reached[k] else Size(m)
  }

  /** The members in order, until the goal is met or one fails; what is committed stands. */
  ghost function SaveMembers(g: Group, group: seq<nat>, ms: seq<Manifest>, minFree: nat, reached: map<nat, nat>): Group
    decreases |group|
  {
    if group == [] || ms == [] then g
    else
      var g1 := SaveHeld(g, group[0], ms[0], ReachOf(reached, group[0], ms[0]));
      if g1.failed then g1
      else
        var g2 := g1.(b := ReclaimCached(g1.b, minFree));
        if |g2.b.s.pool.free| >= minFree then g2 else SaveMembers(g2, group[1..], ms[1..], minFree, reached)
  }

  /** `close_group`: unwritten slots are given back, and tails that no manifest names are dropped. */
  function Close(b: Blocks): Blocks {
    b.(store := DropTails(b.manifests, b.store))
  }

  ghost function ReclaimGroup(b: Blocks, group: seq<nat>, minFree: nat, evict: set<HostKey>, reached: map<nat, nat>): Group {
    var (b1, ms) := Prepare(b, group, evict);
    if ms.None? then Group(b1, [], true)
    else
      var g := SaveMembers(Group(b1, [], false), group, ms.value, minFree, reached);
      g.(b := Close(g.b))
  }

  // ----- what is still to be saved is reserved under an id of its own -----

  predicate Elsewhere(b: Blocks, k: nat) {
    k < |b.s.reqs| && b.s.reqs[k].table == [] && k in b.manifests
  }

  ghost predicate Ascending(ms: seq<Manifest>) {
    forall i, j :: 0 <= i < j < |ms| ==> ms[i].id < ms[j].id
  }

  ghost predicate AllFresh(b: Blocks, ms: seq<Manifest>, base: nat) {
    forall i :: 0 <= i < |ms| ==> FreshId(b, ms[i].id) && ms[i].id >= base
  }

  ghost predicate Exact(b: Blocks, group: seq<nat>, ms: seq<Manifest>) {
    && |ms| == |group|
    && forall i :: 0 <= i < |group| ==>
         group[i] < |b.s.reqs| && (!Elsewhere(b, group[i]) ==> ms[i] == ManifestOf(b, group[i], ms[i].id))
  }

  ghost predicate Booked(b: Blocks, group: seq<nat>, ms: seq<Manifest>, base: nat) {
    Ascending(ms) && AllFresh(b, ms, base) && Exact(b, group, ms) && RoomFor(b, AllKeys(ms))
  }

  lemma {:induction false} DescribedMeaning(b: Blocks, group: seq<nat>, id: nat)
    requires b.s.pool.bs >= 1
    ensures var (next, ms) := Described(b, group, id);
      && next >= id
      && (ms.Some? ==> Ascending(ms.value) && Exact(b, group, ms.value) && forall i :: 0 <= i < |ms.value| ==> id <= ms.value[i].id < next)
    decreases |group|
  {
    hide Savable, BlocksNeededFor;
    if group != [] && Savable(b, group[0]) {
      SavableSize(b, group[0]);
      DescribedMeaning(b, group[1..], id + 1);
      var (next, rest) := Described(b, group[1..], id + 1);
      if rest.Some? {
        var ms := [ManifestOf(b, group[0], id)] + rest.value;
        forall i | 0 <= i < |group|
          ensures group[i] < |b.s.reqs| && (!Elsewhere(b, group[i]) ==> ms[i] == ManifestOf(b, group[i], ms[i].id))
        {
          assert i > 0 ==> group[i] == group[1..][i - 1];
        }
      }
    }
  }

  lemma SavableSize(b: Blocks, k: nat)
    requires Savable(b, k)
    ensures k < |b.s.reqs|
  {
  }

  lemma PreparedBooked(net: Net, b: Blocks, group: seq<nat>, evict: set<HostKey>)
    requires BlocksInv(net, b)
    ensures var (b1, ms) := Prepare(b, group, evict);
      && BlocksInv(net, b1) && b1 == b.(store := b1.store, ledger := b1.ledger, nextId := b1.nextId) && b1.nextId >= b.nextId
      && (ms.Some? ==> Booked(b1, group, ms.value, b.nextId))
  {
    hide BlocksInv, Described, ReserveKeys, RoomFor, Ascending, FreshId, OldTails, AllKeys;
    BlocksSys(net, b);
    var (next, ms) := Described(b, group, b.nextId);
    DescribedMeaning(b, group, b.nextId);
    NextIdInv(net, b, next);
    var b0 := b.(nextId := next);
    if ms.Some? && ReserveKeys(b0, AllKeys(ms.value), OldTails(b, group), evict).Some? {
      ReservedInv(net, b0, AllKeys(ms.value), OldTails(b, group), evict);
      var b1 := ReserveKeys(b0, AllKeys(ms.value), OldTails(b, group), evict).value;
      forall i | 0 <= i < |ms.value|
        ensures FreshId(b1, ms.value[i].id)
      {
        LaterFresh(net, b, b1, ms.value[i].id);
      }
    }
  }

  lemma LaterFresh(net: Net, b: Blocks, b': Blocks, id: nat)
    requires BlocksInv(net, b) && b'.manifests == b.manifests && b.nextId <= id < b'.nextId
    requires forall key :: key in b'.store ==> key in b.store
    ensures FreshId(b', id)
  {
    hide SysInv, StoreRight, LedgerGood, Roomy;
  }

  // ----- one member -----

  ghost predicate OnHostNow(b: Blocks, b': Blocks, k: nat) {
    && k < |b.s.reqs| == |b'.s.reqs| && b.s.reqs[k].status == Paused && Elsewhere(b', k) && G.SameSession(b.s.reqs[k], b'.s.reqs[k])
    && (b'.s.reqs[k].residency == OnCpu || b'.s.reqs[k] == b.s.reqs[k])
  }

  /** Exactly the listed requests are on the host's books now; no history or status changed. */
  ghost predicate Moved(b: Blocks, b': Blocks, ids: seq<nat>) {
    && |b'.s.reqs| == |b.s.reqs|
    && (forall k: nat :: k < |b.s.reqs| ==> if k in ids then OnHostNow(b, b', k) else b'.s.reqs[k] == b.s.reqs[k])
    && (forall k: nat :: k !in ids ==> (k in b'.manifests <==> k in b.manifests))
  }

  /** Every other manifest stands; a new one has an id of its own. */
  ghost predicate NewManifests(b: Blocks, b': Blocks, base: nat) {
    forall k :: k in b'.manifests ==> (k in b.manifests && b'.manifests[k] == b.manifests[k]) || b'.manifests[k].id >= base
  }

  ghost predicate Kept(b: Blocks, b': Blocks) {
    && SameFrame(b.s.pool, b'.s.pool) && b'.weights == b.weights && b'.capacity == b.capacity && b'.nextId >= b.nextId
    && b'.s.mem == b.s.mem && b'.uses == b.uses
  }

  lemma MovedNothing(b: Blocks, b': Blocks)
    requires b'.s.reqs == b.s.reqs && b'.manifests == b.manifests
    ensures Moved(b, b', [])
    ensures forall base: nat :: NewManifests(b, b', base)
  {
  }

  lemma MovedMore(a: Blocks, b: Blocks, c: Blocks, k: nat, ids: seq<nat>)
    requires Moved(a, b, [k]) && Moved(b, c, ids)
    ensures Moved(a, c, [k] + ids)
  {
    hide G.SameSession;
    forall j: nat | j < |a.s.reqs|
      ensures if j in [k] + ids then OnHostNow(a, c, j) else c.s.reqs[j] == a.s.reqs[j]
    {
      if j == k && j in ids {
        G.SameSessionTrans(a.s.reqs[j], b.s.reqs[j], c.s.reqs[j]);
        assert OnHostNow(a, b, j) && OnHostNow(b, c, j);
      } else if j == k {
        assert OnHostNow(a, b, j) && c.s.reqs[j] == b.s.reqs[j];
      }
    }
  }

  lemma NewManifestsTrans(a: Blocks, b: Blocks, c: Blocks, base: nat)
    requires NewManifests(a, b, base) && NewManifests(b, c, base)
    ensures NewManifests(a, c, base)
  {
  }

  lemma KeptTrans(a: Blocks, b: Blocks, c: Blocks)
    requires Kept(a, b) && Kept(b, c)
    ensures Kept(a, c)
  {
  }

  lemma KeptRefl(b: Blocks)
    ensures Kept(b, b)
  {
  }

  lemma MovedHere(b: Blocks, k: nat)
    requires Elsewhere(b, k) && b.s.reqs[k].status == Paused
    ensures Moved(b, b, [k])
  {
  }

  lemma SavedMoved(b: Blocks, k: nat, id: nat, keys: set<HostKey>, b': Blocks, base: nat)
    requires k < |b.s.reqs| && b.s.reqs[k].status == Paused && id >= base
    requires SaveOutcome(b, k, id, b', Saved) && SaveFrame(b, k, keys, b') && G.SameSession(b.s.reqs[k], b'.s.reqs[k])
    ensures Moved(b, b', [k]) && NewManifests(b, b', base) && Kept(b, b') && Elsewhere(b', k)
  {
    hide SameFrame, G.SameSession;
    assert OnBooks(b', k);
    assert OnHostNow(b, b', k);
  }

  lemma SavedSession(b: Blocks, k: nat, id: nat, reached: nat)
    requires Savable(b, k) && SaveMember(b, k, id, reached).1 == Saved
    ensures var b' := SaveMember(b, k, id, reached).0; |b'.s.reqs| == |b.s.reqs| && G.SameSession(b.s.reqs[k], b'.s.reqs[k])
  {
    hide CommitKeys, Exported, DecrefAll, DropTails, Gone, BlocksNeededFor;
    CommitBooks(ManifestOf(b, k, id), Exported(b.s.mem, b.s.reqs[k].table[..Size(ManifestOf(b, k, id))], b.s.pool.bs, b.s.reqs[k].computed), b, 0, Size(ManifestOf(b, k, id)));
  }

  ghost predicate MemberOutcome(net: Net, g: Group, g': Group, k: nat, base: nat) {
    && BlocksInv(net, g'.b) && Kept(g.b, g'.b) && NewManifests(g.b, g'.b, base)
    && (if g'.failed then g'.committed == g.committed && Moved(g.b, g'.b, []) else g'.committed == g.committed + [k] && Moved(g.b, g'.b, [k]))
  }

  lemma BookedHead(b: Blocks, group: seq<nat>, ms: seq<Manifest>, base: nat)
    requires Booked(b, group, ms, base) && group != []
    ensures ms != [] && group[0] < |b.s.reqs| && FreshId(b, ms[0].id) && ms[0].id >= base
    ensures !Elsewhere(b, group[0]) ==> ms[0] == ManifestOf(b, group[0], ms[0].id)
    ensures RoomFor(b, KeysOf(ms[0]))
  {
    hide FreshId, KeysOf;
    RoomLess(b, AllKeys(ms), KeysOf(ms[0]));
  }

  lemma RoomLess(b: Blocks, keys: set<HostKey>, keys': set<HostKey>)
    requires RoomFor(b, keys) && keys' <= keys
    ensures RoomFor(b, keys')
  {
    SubsetSize(b.store.Keys + keys', b.store.Keys + keys);
  }

  /** The rest stays booked when only the head has moved. */
  lemma BookedRest(b: Blocks, b': Blocks, group: seq<nat>, ms: seq<Manifest>, base: nat)
    requires Booked(b, group, ms, base) && group != [] && Kept(b, b') && Moved(b, b', [group[0]]) && TailsFrom(b, b', ms[0])
    requires forall k :: k in b'.manifests ==> (k in b.manifests && b'.manifests[k] == b.manifests[k]) || b'.manifests[k].id == ms[0].id
    ensures Booked(b', group[1..], ms[1..], base)
  {
    hide KeysOf, OnHostNow, RoomFor;
    var rest, later := group[1..], ms[1..];
    BookedHead(b, group, ms, base);
    forall i | 0 <= i < |later|
      ensures FreshId(b', later[i].id) && later[i].id >= base
    {
      assert later[i] == ms[i + 1] && ms[0].id < ms[i + 1].id && FreshId(b, ms[i + 1].id);
    }
    forall i | 0 <= i < |rest|
      ensures rest[i] < |b'.s.reqs| && (!Elsewhere(b', rest[i]) ==> later[i] == ManifestOf(b', rest[i], later[i].id))
    {
      assert rest[i] == group[i + 1] && later[i] == ms[i + 1];
      HeadElsewhere(b, b', group[0]);
      if rest[i] != group[0] {
        assert b'.s.reqs[rest[i]] == b.s.reqs[rest[i]];
      }
    }
    forall i, j | 0 <= i < j < |later|
      ensures later[i].id < later[j].id
    {
      assert later[i] == ms[i + 1] && later[j] == ms[j + 1];
    }
    RoomLater(b, b', ms);
  }

  lemma HeadElsewhere(b: Blocks, b': Blocks, k: nat)
    requires Moved(b, b', [k]) && k < |b.s.reqs|
    ensures Elsewhere(b', k)
  {
    hide G.SameSession;
    assert k in [k];
    assert OnHostNow(b, b', k);
  }

  /** What the store gained is blocks of this manifest. */
  ghost predicate TailsFrom(b: Blocks, b': Blocks, m: Manifest) {
    forall key :: key in b'.store ==> key in b.store || (key in KeysOf(m) && (key.Tail? ==> key.id == m.id))
  }

  lemma RoomLater(b: Blocks, b': Blocks, ms: seq<Manifest>)
    requires ms != [] && RoomFor(b, AllKeys(ms)) && b'.capacity == b.capacity && TailsFrom(b, b', ms[0])
    ensures RoomFor(b', AllKeys(ms[1..]))
  {
    hide KeysOf, RoomFor;
    RoomWithin(b, b', AllKeys(ms), AllKeys(ms[1..]));
  }

  lemma FrameTails(b: Blocks, b': Blocks, k: nat, m: Manifest)
    requires SaveFrame(b, k, KeysOf(m), b')
    ensures TailsFrom(b, b', m)
  {
    hide SameFrame, KeyAt, BlocksNeededFor;
    forall key | key in b'.store && key !in b.store
      ensures key in KeysOf(m) && (key.Tail? ==> key.id == m.id)
    {
      var j: nat :| j < Size(m) && key == KeyAt(m, j);
      KeyIds(m, j);
    }
  }

  lemma SaveHeldInv(net: Net, g: Group, group: seq<nat>, ms: seq<Manifest>, reached: nat, base: nat)
    requires BlocksInv(net, g.b) && group != [] && Booked(g.b, group, ms, base) && !g.failed
    ensures ms != []
    ensures var g' := SaveHeld(g, group[0], ms[0], reached);
      MemberOutcome(net, g, g', group[0], base) && (!g'.failed ==> Booked(g'.b, group[1..], ms[1..], base))
  {
    hide BlocksInv, Booked, Savable, SaveMember, Moved, Kept, NewManifests, KeysOf, RoomFor, FreshId, SaveOutcome, SaveFrame, TailsFrom, G.SameSession;
    BookedHead(g.b, group, ms, base);
    var b, k, m := g.b, group[0], ms[0];
    MovedNothing(b, b);
    KeptRefl(b);
    if b.s.reqs[k].status == Paused {
      if Elsewhere(b, k) {
        MovedHere(b, k);
        TailsNothing(b, m);
        BookedRest(b, b, group, ms, base);
      } else if Savable(b, k) {
        SaveMemberInv(net, b, k, m.id, reached);
        var (b', result) := SaveMember(b, k, m.id, reached);
        if result == Saved {
          SavedSession(b, k, m.id, reached);
          SavedMoved(b, k, m.id, KeysOf(m), b', base);
          FrameTails(b, b', k, m);
          SavedIds(b, k, m.id, KeysOf(m), b');
          BookedRest(b, b', group, ms, base);
        } else {
          FailedMember(b, k, m.id, KeysOf(m), b', result, base);
        }
      }
    }
  }

  lemma TailsNothing(b: Blocks, m: Manifest)
    ensures TailsFrom(b, b, m)
  {
  }

  lemma SavedIds(b: Blocks, k: nat, id: nat, keys: set<HostKey>, b': Blocks)
    requires SaveOutcome(b, k, id, b', Saved) && SaveFrame(b, k, keys, b')
    ensures forall j :: j in b'.manifests ==> (j in b.manifests && b'.manifests[j] == b.manifests[j]) || b'.manifests[j].id == id
  {
    hide SameFrame;
    assert OnBooks(b', k);
  }

  lemma FailedMember(b: Blocks, k: nat, id: nat, keys: set<HostKey>, b': Blocks, result: SaveResult, base: nat)
    requires result != Saved && SaveOutcome(b, k, id, b', result) && SaveFrame(b, k, keys, b')
    ensures Moved(b, b', []) && Kept(b, b') && NewManifests(b, b', base)
  {
    hide SameFrame;
  }

  // ----- the whole group -----

  lemma CachedReclaimed(net: Net, b: Blocks, minFree: nat)
    requires BlocksInv(net, b)
    ensures var b' := ReclaimCached(b, minFree);
      BlocksInv(net, b') && Kept(b, b') && b' == b.(s := b'.s) && b'.s.reqs == b.s.reqs && b'.s.pool.bs == b.s.pool.bs && b'.s.pool.epoch == b.s.pool.epoch
  {
    hide BlocksInv, SysInv, EvictUnused;
    BlocksSys(net, b);
    O.EvictSys(net, b.s, minFree - |b.s.pool.free|);
    EvictFrame(b.s.pool, minFree - |b.s.pool.free|);
    HostSameKeeps(net, b, ReclaimCached(b, minFree).s);
  }

  lemma BookedSame(b: Blocks, b': Blocks, group: seq<nat>, ms: seq<Manifest>, base: nat)
    requires Booked(b, group, ms, base) && b' == b.(s := b'.s)
    requires b'.s.reqs == b.s.reqs && b'.s.pool.bs == b.s.pool.bs && b'.s.pool.epoch == b.s.pool.epoch
    ensures Booked(b', group, ms, base)
  {
    hide AllKeys;
  }

  /** The committed members, a prefix of the group, are exactly the requests that moved; it ends
      early only by reaching the goal or by a failure. */
  ghost predicate MembersOutcome(net: Net, g: Group, g': Group, group: seq<nat>, minFree: nat, n: nat, base: nat) {
    && BlocksInv(net, g'.b) && Kept(g.b, g'.b) && NewManifests(g.b, g'.b, base)
    && n <= |group| && g'.committed == g.committed + group[..n] && Moved(g.b, g'.b, group[..n])
    && (g'.failed ==> n < |group|) && (!g'.failed && n < |group| ==> |g'.b.s.pool.free| >= minFree)
  }

  lemma {:induction false} SaveMembersInv(net: Net, g: Group, group: seq<nat>, ms: seq<Manifest>, minFree: nat, reached: map<nat, nat>, base: nat)
    returns (n: nat)
    requires BlocksInv(net, g.b) && Booked(g.b, group, ms, base) && !g.failed
    ensures MembersOutcome(net, g, SaveMembers(g, group, ms, minFree, reached), group, minFree, n, base)
    decreases |group|
  {
    hide BlocksInv, Booked, SaveHeld, Moved, Kept, NewManifests, ReclaimCached;
    KeptRefl(g.b);
    MovedNothing(g.b, g.b);
    n := 0;
    assert g.committed + group[..0] == g.committed;
    if group != [] {
      var r := ReachOf(reached, group[0], if ms == [] then Manifest(0, 0, [], 0, 0, 0, 0) else ms[0]);
      SaveHeldInv(net, g, group, ms, r, base);
      var g1 := SaveHeld(g, group[0], ms[0], r);
      if !g1.failed {
        n := 1;
        assert group[..1] == [group[0]];
        CachedReclaimed(net, g1.b, minFree);
        var g2 := g1.(b := ReclaimCached(g1.b, minFree));
        KeptTrans(g.b, g1.b, g2.b);
        MovedTo(g.b, g1.b, g2.b, [group[0]], base);
        if |g2.b.s.pool.free| < minFree {
          BookedSame(g1.b, g2.b, group[1..], ms[1..], base);
          var m := SaveMembersInv(net, g2, group[1..], ms[1..], minFree, reached, base);
          JoinMembers(net, g, g2, SaveMembers(g2, group[1..], ms[1..], minFree, reached), group, minFree, m, base);
          n := m + 1;
        }
      }
    }
  }

  lemma MovedTo(a: Blocks, b: Blocks, c: Blocks, ids: seq<nat>, base: nat)
    requires Moved(a, b, ids) && NewManifests(a, b, base) && c.s.reqs == b.s.reqs && c.manifests == b.manifests
    ensures Moved(a, c, ids) && NewManifests(a, c, base)
  {
    hide G.SameSession;
    forall k: nat | k < |a.s.reqs| && k in ids
      ensures OnHostNow(a, c, k)
    {
      assert OnHostNow(a, b, k);
    }
  }

  lemma JoinMembers(net: Net, g: Group, g2: Group, g': Group, group: seq<nat>, minFree: nat, m: nat, base: nat)
    requires group != [] && Kept(g.b, g2.b) && Moved(g.b, g2.b, [group[0]]) && NewManifests(g.b, g2.b, base) && g2.committed == g.committed + [group[0]]
    requires MembersOutcome(net, g2, g', group[1..], minFree, m, base)
    ensures MembersOutcome(net, g, g', group, minFree, m + 1, base)
  {
    hide BlocksInv, Moved, Kept, NewManifests;
    KeptTrans(g.b, g2.b, g'.b);
    NewManifestsTrans(g.b, g2.b, g'.b, base);
    MovedMore(g.b, g2.b, g'.b, group[0], group[1..][..m]);
    assert [group[0]] + group[1..][..m] == group[..m + 1];
    assert g.committed + [group[0]] + group[1..][..m] == g.committed + group[..m + 1];
  }

  lemma CloseInv(net: Net, b: Blocks)
    requires BlocksInv(net, b)
    ensures BlocksInv(net, Close(b)) && Kept(b, Close(b)) && Close(b) == b.(store := Close(b).store)
  {
    hide SysInv, StoreRight, LedgerGood, TailsOld, ManifestsGood, DropTails, Roomy;
    DropTailsFewer(b, b.manifests);
    LedgerShrinks(b, Close(b));
    TailsFewer(b, Close(b));
    StoreFewer(net, b.s.pool.bs, b.manifests, b.store, Close(b).store);
    ManifestsKept(b, Close(b));
  }

  /** What a group reclaim leaves.  A request with a block table is on the host's books without
      one afterwards exactly when it is among the committed ids; those are a prefix of the group,
      and all of it unless the goal was met or a member failed.  No history changes. */
  ghost predicate GroupOutcome(b: Blocks, g: Group, group: seq<nat>, minFree: nat) {
    && |g.b.s.reqs| == |b.s.reqs| && g.committed <= group
    && (!g.failed ==> g.committed == group || |g.b.s.pool.free| >= minFree)
    && (forall k: nat :: k < |b.s.reqs| ==> G.SameSession(b.s.reqs[k], g.b.s.reqs[k]))
    && (forall k: nat :: k < |b.s.reqs| && b.s.reqs[k].table != [] ==>
          (Elsewhere(g.b, k) <==> k in g.committed) && (k in g.committed ==> g.b.s.reqs[k].residency == OnCpu))
    && (forall k: nat :: k < |b.s.reqs| && k !in g.committed ==> g.b.s.reqs[k] == b.s.reqs[k])
  }

  lemma MovedOutcome(b: Blocks, b': Blocks, ids: seq<nat>)
    requires Moved(b, b', ids)
    ensures |b'.s.reqs| == |b.s.reqs| && forall k: nat :: k < |b.s.reqs| ==> G.SameSession(b.s.reqs[k], b'.s.reqs[k])
    ensures forall k: nat :: k < |b.s.reqs| && k !in ids ==> b'.s.reqs[k] == b.s.reqs[k]
    ensures forall k: nat :: k < |b.s.reqs| && b.s.reqs[k].table != [] ==>
              (Elsewhere(b', k) <==> k in ids) && (k in ids ==> b'.s.reqs[k].residency == OnCpu)
  {
    forall k: nat | k < |b.s.reqs|
      ensures k in ids ==> OnHostNow(b, b', k)
    {
    }
  }

  lemma ReclaimGroupInv(net: Net, b: Blocks, group: seq<nat>, minFree: nat, evict: set<HostKey>, reached: map<nat, nat>)
    requires BlocksInv(net, b)
    ensures var g := ReclaimGroup(b, group, minFree, evict, reached);
      BlocksInv(net, g.b) && Kept(b, g.b) && NewManifests(b, g.b, b.nextId) && GroupOutcome(b, g, group, minFree)
  {
    hide BlocksInv, Booked, SaveMembers, Prepare, Kept, NewManifests, Moved, Close, G.SameSession;
    PreparedBooked(net, b, group, evict);
    var (b1, ms) := Prepare(b, group, evict);
    KeptPrepared(b, b1);
    MovedNothing(b, b1);
    MovedOutcome(b, b1, []);
    if ms.Some? {
      var g0 := Group(b1, [], false);
      var n := SaveMembersInv(net, g0, group, ms.value, minFree, reached, b.nextId);
      var g := SaveMembers(g0, group, ms.value, minFree, reached);
      CloseInv(net, g.b);
      KeptTrans(b, b1, g.b);
      KeptTrans(b, g.b, Close(g.b));
      NewManifestsTrans(b, b1, g.b, b.nextId);
      MovedFrom(b, b1, g.b, Close(g.b), group[..n], b.nextId);
      MovedOutcome(b, Close(g.b), group[..n]);
      assert [] + group[..n] == group[..n];
      assert n == |group| ==> group[..n] == group;
    }
  }

  lemma KeptPrepared(b: Blocks, b1: Blocks)
    requires b1 == b.(store := b1.store, ledger := b1.ledger, nextId := b1.nextId) && b1.nextId >= b.nextId
    ensures Kept(b, b1)
  {
  }

  lemma MovedFrom(b: Blocks, b1: Blocks, b2: Blocks, b3: Blocks, ids: seq<nat>, base: nat)
    requires b1.s == b.s && b1.manifests == b.manifests && Moved(b1, b2, ids) && b3.s == b2.s && b3.manifests == b2.manifests
    requires NewManifests(b, b2, base)
    ensures Moved(b, b3, ids) && NewManifests(b, b3, base)
  {
    hide G.SameSession;
    forall k: nat | k < |b.s.reqs| && k in ids
      ensures OnHostNow(b, b3, k)
    {
      assert OnHostNow(b1, b2, k);
    }
  }
}

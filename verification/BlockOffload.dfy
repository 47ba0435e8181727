/** The block backend: paused sessions as manifests over a host cache of single blocks, with
    deduplicated saves, restores that stop at the first block nobody has any more, and a ledger
    of every block ever written. */
module BlockOffload {
  import opened Kv
  import opened BlockPool
  import opened Requests
  import opened Ownership
  import opened OwnershipSteps
  import opened System
  import opened SystemInv
  import opened ScheduleInv
  import opened Engine
  import opened Runs
  import opened Steady
  import opened Geometry
  import opened Transfer
  import opened Restore
  import O = Offload
  import T = OffloadRuns

  // ----- manifests and the store -----

  /** Full blocks are shared by content; a partial last block belongs to one save. */
  datatype HostKey = Chain(hash: Hash) | Tail(owner: nat, id: nat)

  /** A committed host block under the handle it was issued. */
  datatype Replica = Replica(handle: nat, data: seq<Cell>)

  datatype Manifest = Manifest(owner: nat, id: nat, tokens: seq<Token>, valid: nat, bs: nat, weights: nat, epoch: nat)

  /** Written blocks by handle, and whether a restore of each has been seen to be used;
      counters for those that have left. */
  datatype Ledger = Ledger(cohorts: map<nat, bool>, committed: nat, retiredUsed: nat, retiredUnused: nat)

  datatype Use = Use(handles: set<nat>, valid: nat, table: seq<nat>)

  /** `capacity` is the host budget in blocks. */
  datatype Blocks = Blocks(s: Sys, manifests: map<nat, Manifest>, store: map<HostKey, Replica>, uses: map<nat, Use>,
                           ledger: Ledger, nextId: nat, nextHandle: nat, weights: nat, capacity: nat)

  function KeyAt(m: Manifest, i: nat): HostKey {
    if i * m.bs + m.bs <= m.valid then Chain(ChainHash(m.tokens, m.bs, i + 1)) else Tail(m.owner, m.id)
  }

  function Size(m: Manifest): nat {
    if m.bs >= 1 then BlocksNeededFor(m.valid, m.bs) else 0
  }

  // ----- what a stored block must be -----

  ghost predicate ChainRight(net: Net, bs: nat, h: Hash, data: seq<Cell>) {
    |HashTokens(h)| >= bs && data == RefCells(net, HashTokens(h))[|HashTokens(h)| - bs..]
  }

  ghost predicate ReplicaRight(net: Net, bs: nat, manifests: map<nat, Manifest>, key: HostKey, data: seq<Cell>)
    requires bs >= 1
  {
    match key
    case Chain(h) => ChainRight(net, bs, h, data)
    case Tail(k, id) =>
      k in manifests && manifests[k].id == id ==>
        Right(net, manifests[k].tokens, manifests[k].bs, manifests[k].valid, manifests[k].valid / bs, data)
  }

  ghost predicate StoreRight(net: Net, bs: nat, manifests: map<nat, Manifest>, store: map<HostKey, Replica>)
    requires bs >= 1
  {
    forall key :: key in store ==> ReplicaRight(net, bs, manifests, key, store[key].data)
  }

  /** A block stored under a chain hash is right for every history that begins with it. */
  lemma ChainIsRight(net: Net, bs: nat, tokens: seq<Token>, valid: nat, i: nat, data: seq<Cell>)
    requires bs >= 1 && valid <= |tokens| && i * bs + bs <= valid && ChainRight(net, bs, ChainHash(tokens, bs, i + 1), data)
    ensures Right(net, tokens, bs, valid, i, data)
  {
    hide RefCells, ChainHash, HashTokens;
    var n := i * bs + bs;
    MulStep(i + 1, bs);
    ChainHashTokens(tokens, bs, i + 1);
    RefCellsPrefix(net, tokens[..valid], n);
    assert tokens[..valid][..n] == tokens[..n];
    forall o | 0 <= o < bs && i * bs + o < valid
      ensures data[o] == RefCells(net, tokens[..valid])[i * bs + o]
    {
      assert RefCells(net, tokens[..n])[n - bs..][o] == RefCells(net, tokens[..n])[i * bs + o];
      assert RefCells(net, tokens[..valid])[..n][i * bs + o] == RefCells(net, tokens[..valid])[i * bs + o];
    }
  }

  /** And a right full block may be stored under its chain hash. */
  lemma RightIsChain(net: Net, bs: nat, tokens: seq<Token>, valid: nat, i: nat, data: seq<Cell>)
    requires bs >= 1 && i * bs + bs <= valid && Right(net, tokens, bs, valid, i, data)
    ensures ChainRight(net, bs, ChainHash(tokens, bs, i + 1), data)
  {
    hide RefCells, ChainHash, HashTokens;
    var n := i * bs + bs;
    MulStep(i + 1, bs);
    ChainHashTokens(tokens, bs, i + 1);
    RefCellsPrefix(net, tokens[..valid], n);
    assert tokens[..valid][..n] == tokens[..n];
    forall o | 0 <= o < bs
      ensures data[o] == RefCells(net, tokens[..n])[n - bs..][o]
    {
      assert RefCells(net, tokens[..n])[n - bs..][o] == RefCells(net, tokens[..n])[i * bs + o];
      assert RefCells(net, tokens[..valid])[..n][i * bs + o] == RefCells(net, tokens[..valid])[i * bs + o];
    }
  }

  // ----- saving -----

  /** Copies and commits the blocks [i, reached) that the store does not have yet. */
  function CommitKeys(m: Manifest, source: Memory, b: Blocks, i: nat, reached: nat): Blocks
    decreases reached - i
  {
    if i >= reached || i >= |source| then b
    else if KeyAt(m, i) in b.store then CommitKeys(m, source, b, i + 1, reached)
    else
      var h := b.nextHandle;
      CommitKeys(m, source,
                 b.(store := b.store[KeyAt(m, i) := Replica(h, source[i])], nextHandle := h + 1,
                    ledger := b.ledger.(cohorts := b.ledger.cohorts[h := false], committed := b.ledger.committed + 1)),
                 i + 1, reached)
  }

  /** `_prune_cohorts`: what can no longer be restored is settled. */
  function Stored(store: map<HostKey, Replica>, h: nat): bool {
    exists key :: key in store && store[key].handle == h
  }

  function Awaited(uses: map<nat, Use>, h: nat): bool {
    exists k :: k in uses && h in uses[k].handles
  }

  function Gone(b: Blocks): set<nat> {
    set h | h in b.ledger.cohorts && !Stored(b.store, h) && !Awaited(b.uses, h)
  }

  function Marked(h: set<nat>, cohorts: map<nat, bool>, seen: bool): set<nat> {
    set x | x in h && x in cohorts && cohorts[x] == seen
  }

  function Prune(b: Blocks): Blocks {
    var gone := Gone(b);
    b.(ledger := b.ledger.(cohorts := b.ledger.cohorts - gone,
                           retiredUsed := b.ledger.retiredUsed + |Marked(gone, b.ledger.cohorts, true)|,
                           retiredUnused := b.ledger.retiredUnused + |Marked(gone, b.ledger.cohorts, false)|))
  }

  /** Private tails that no manifest names any more. */
  function DropTails(manifests: map<nat, Manifest>, store: map<HostKey, Replica>): map<HostKey, Replica> {
    map key | key in store && (key.Chain? || (key.owner in manifests && manifests[key.owner].id == key.id)) :: store[key]
  }

  datatype SaveResult = Saved | NotPaused | AlreadyThere | Failed

  function ManifestOf(b: Blocks, k: nat, id: nat): Manifest
    requires k < |b.s.reqs|
  {
    Manifest(k, id, b.s.reqs[k].tokens, b.s.reqs[k].computed, b.s.pool.bs, b.weights, b.s.pool.epoch)
  }

  function KeysOf(m: Manifest): set<HostKey> {
    set i: nat | i < Size(m) :: KeyAt(m, i)
  }

  /** The private tail of an earlier save stays until the new manifest stands. */
  function OldTail(b: Blocks, k: nat): set<HostKey> {
    set key | k in b.manifests && key in KeysOf(b.manifests[k]) && key.Tail?
  }

  /** `reserve`: room for every key at once.  `evict` is what the store gives up; nothing that
      is to be written or is protected may be among it. */
  function ReserveKeys(b: Blocks, keys: set<HostKey>, protect: set<HostKey>, evict: set<HostKey>): Option<Blocks> {
    if |keys + protect| > b.capacity || evict * (keys + protect) != {} || |b.store.Keys - evict| + |keys - b.store.Keys| > b.capacity then None
    else Some(EvictHost(b, evict))
  }

  /** The committed prefix of the request lies within its history and its table. */
  ghost predicate Savable(b: Blocks, k: nat) {
    && k < |b.s.reqs| && b.s.pool.bs >= 1
    && var r := b.s.reqs[k];
       r.computed <= |r.tokens| && BlocksNeededFor(r.computed, b.s.pool.bs) <= |r.table| && InPool(r.table, |b.s.mem|)
  }

  /** The save of one request under snapshot id `id`, its keys reserved: `reached` blocks are
      copied before something fails, or all of them. */
  ghost function SaveMember(b: Blocks, k: nat, id: nat, reached: nat): (Blocks, SaveResult)
    requires Savable(b, k)
  {
    var r := b.s.reqs[k];
    var m := ManifestOf(b, k, id);
    var blocks := Size(m);
    var source := Exported(b.s.mem, r.table[..blocks], b.s.pool.bs, r.computed);
    var b1 := CommitKeys(m, source, b, 0, if reached < blocks then reached else blocks);
    if reached < blocks then (Prune(b1.(store := DropTails(b1.manifests, b1.store))), Failed)
    else
      var manifests := b1.manifests[k := m];
      var r' := O.OffDevice(r, OnCpu, Some(id)).(epoch := b.s.pool.epoch);
      (Prune(b1.(s := SetReq(b.s, k, DecrefAll(b.s.pool, r.table), r'), manifests := manifests, store := DropTails(manifests, b1.store))), Saved)
  }

  /** `save` on its own: a group of one. */
  ghost function SaveBlocks(b: Blocks, k: nat, reached: nat, evict: set<HostKey>): (Blocks, SaveResult)
    requires b.s.pool.bs >= 1
  {
    if k >= |b.s.reqs| || b.s.reqs[k].status != Paused then (b, NotPaused)
    else if b.s.reqs[k].table == [] && k in b.manifests then (b, AlreadyThere)
    else
      var b0 := b.(nextId := b.nextId + 1);
      if !Savable(b, k) then (b0, Failed)
      else
        match ReserveKeys(b0, KeysOf(ManifestOf(b, k, b.nextId)), OldTail(b, k), evict)
        case None => (b0, Failed)
        case Some(b1) => if Savable(b1, k) then SaveMember(b1, k, b.nextId, reached) else (b1, Failed)
  }

  // ----- restoring -----

  /** The plan stops at the first block that neither the device nor the host still has. */
  function PlanLength(p: Pool, store: map<HostKey, Replica>, m: Manifest, i: nat): (n: nat)
    requires p.bs >= 1
    ensures i <= n && (i <= Size(m) ==> n <= Size(m))
    decreases Size(m) - i
  {
    if i >= Size(m) then i
    else if Hit(p, m.tokens, m.valid, i).Some? || KeyAt(m, i) in store then PlanLength(p, store, m, i + 1)
    else i
  }

  /** How much of the history a plan of `n` blocks covers. */
  function Reach(m: Manifest, n: nat): nat {
    Min(m.valid, n * m.bs)
  }

  function HostSources(store: map<HostKey, Replica>, m: Manifest, hits: seq<Option<nat>>): Sources {
    seq(|hits|, i requires 0 <= i < |hits| =>
      if hits[i].Some? || KeyAt(m, i) !in store then None else Some(store[KeyAt(m, i)].data))
  }

  function ImportedHandles(store: map<HostKey, Replica>, m: Manifest, hits: seq<Option<nat>>): set<nat> {
    set i | 0 <= i < |hits| && hits[i].None? && KeyAt(m, i) in store :: store[KeyAt(m, i)].handle
  }

  /** `begin_restore`; on refusal every reference taken is given back. */
  function RestoreBlocks(b: Blocks, k: nat, m: Manifest, copyFails: bool): (Blocks, bool)
    requires k < |b.s.reqs| && b.s.pool.bs >= 1
  {
    var s, r := b.s, b.s.reqs[k];
    var n := PlanLength(s.pool, b.store, m, 0);
    var valid := Reach(m, n);
    var hits := DeviceHits(s.pool, r.tokens, valid, n);
    PinsCount(hits);
    var missing := |hits| - |Pins(hits)|;
    var needed := missing + if valid % s.pool.bs == 0 then 1 else 0;
    match RebuildTable(s.pool, hits, needed, copyFails)
    case Refused(q) => (b.(s := SetReq(s, k, q, r.(table := [], computed := 0, scheduled := 0, residency := OnCpu))), false)
    case Rebuilt(q, table) =>
      var r' := r.(table := table, computed := valid, scheduled := 0, epoch := s.pool.epoch, residency := OnGpu,
                   cached := |Pins(hits)| * s.pool.bs, published := 0, parent := Root);
      (b.(s := SetReq(s, k, q, r').(mem := Imported(s.mem, table, HostSources(b.store, m, hits), 0)),
          uses := b.uses[k := Use(ImportedHandles(b.store, m, hits), valid, table)]), true)
  }

  /** `resume_request` with the block backend. */
  function ResumeBlocks(b: Blocks, k: nat, suffix: seq<Token>, q: Params, copyFails: bool): (Blocks, Event)
    requires b.s.pool.bs >= 1
  {
    if k >= |b.s.reqs| then (b, Rejected)
    else if b.s.reqs[k].residency != OnCpu then
      (match Resume(b.s, k, suffix, q.maxTokens, q.hold, q.policy, q.stops, q.ignoreEos)
       case None => (b, Rejected) case Some(s') => (b.(s := s'), Done))
    else if k !in b.manifests then (b, Rejected)
    else
      var r, m := b.s.reqs[k], b.manifests[k];
      if m.weights != b.weights || m.epoch != b.s.pool.epoch || m.bs != b.s.pool.bs || m.tokens != r.tokens || r.table != [] then (b, Rejected)
      else
        var (b1, ok) := RestoreBlocks(b, k, m, copyFails);
        if !ok || b1.s.pool.bs == 0 || k >= |b1.s.reqs| then (b1, Rejected)
        else
          match Resume(b1.s, k, suffix, q.maxTokens, q.hold, q.policy, q.stops, q.ignoreEos)
          case None =>
            var r1 := b1.s.reqs[k];
            (b1.(s := SetReq(b1.s, k, DecrefAll(b1.s.pool, r1.table),
                             r1.(table := [], computed := 0, scheduled := 0, residency := OnCpu, snapshot := Some(m.id))),
                 uses := b1.uses - {k}), Rejected)
          case Some(s2) => (b1.(s := s2), Done)
  }

  // ----- everything else -----

  /** The host cache gives up blocks that nobody is restoring from. */
  function EvictHost(b: Blocks, keys: set<HostKey>): Blocks {
    Prune(b.(store := b.store - keys))
  }

  /** `remove`. */
  function Forget(b: Blocks, k: nat): Blocks {
    var manifests := b.manifests - {k};
    b.(manifests := manifests, store := DropTails(manifests, b.store), uses := b.uses - {k})
  }

  function FinishBlocks(b: Blocks, k: nat): Blocks {
    if k >= |b.s.reqs| || b.s.reqs[k].status == Finished then b else Forget(b.(s := Release(b.s, k)), k)
  }

  function FinishAll(b: Blocks, ids: seq<nat>): Blocks
    decreases |ids|
  {
    if ids == [] then b else FinishAll(FinishBlocks(b, ids[0]), ids[1..])
  }

  /** `mark_used` for one scheduled request. */
  function MarkUsed(b: Blocks, k: nat, r: Req): Blocks {
    if k !in b.uses then b
    else
      var use := b.uses[k];
      var b1 := b.(uses := b.uses - {k});
      if r.computed < use.valid || !(use.table <= r.table) then b1
      else b1.(ledger := b1.ledger.(cohorts := map h | h in b1.ledger.cohorts :: b1.ledger.cohorts[h] || h in use.handles))
  }

  function MarkAll(b: Blocks, reqs: seq<Req>, ids: seq<nat>): Blocks
    decreases |ids|
  {
    if ids == [] then b
    else MarkAll(if ids[0] < |reqs| then MarkUsed(b, ids[0], reqs[ids[0]]) else b, reqs, ids[1..])
  }

  /** `invalidate_all`. */
  function ForgetAll(b: Blocks): Blocks {
    Prune(b.(manifests := map[], store := map[], uses := map[]))
  }

  /** Requests that finished during a step are forgotten. */
  function ForgetFinished(b: Blocks, ids: seq<nat>): Blocks
    decreases |ids|
  {
    if ids == [] then b
    else ForgetFinished(if ids[0] < |b.s.reqs| && b.s.reqs[ids[0]].status == Finished then Forget(b, ids[0]) else b, ids[1..])
  }

  ghost function StepBlocks(net: Net, cfg: Config, propose: Proposer, b: Blocks): (Blocks, Event) {
    match Schedule(cfg, propose, b.s)
    case Scheduled(mid, ids) =>
      var (s', emitted) := PagedBatch(net, cfg, mid, ids);
      (ForgetFinished(MarkAll(b.(s := s'), mid.reqs, NormalIds(mid, ids)), ids), Emitted(emitted))
    case Idle(s') => (b.(s := s'), Emitted([]))
    case TooLarge(s') => (b.(s := s'), Rejected)
    case _ => (b, Corrupt)
  }

  // ----- the invariant -----

  /** A request that says its KV is on the host is on the books under its whole history. */
  ghost predicate OnBooks(b: Blocks, k: nat) {
    && k < |b.s.reqs| && k in b.manifests
    && var r, m := b.s.reqs[k], b.manifests[k];
       r.status == Paused && r.table == [] && r.computed == 0 && m.tokens == r.tokens
       && m.weights == b.weights && m.epoch == b.s.pool.epoch
  }

  ghost predicate ManifestsGood(b: Blocks) {
    && (forall k :: k in b.manifests ==>
          b.manifests[k].owner == k && b.manifests[k].id < b.nextId && b.manifests[k].bs == b.s.pool.bs && b.manifests[k].valid <= |b.manifests[k].tokens|)
    && (forall k :: 0 <= k < |b.s.reqs| && b.s.reqs[k].residency == OnCpu ==> OnBooks(b, k))
  }

  /** Every block ever committed is in exactly one place on the ledger, under its own handle. */
  ghost predicate LedgerGood(b: Blocks) {
    && b.ledger.committed == |b.ledger.cohorts.Keys| + b.ledger.retiredUsed + b.ledger.retiredUnused
    && (forall h :: h in b.ledger.cohorts ==> h < b.nextHandle)
    && (forall key :: key in b.store ==> b.store[key].handle in b.ledger.cohorts)
  }

  /** Save ids are never reused. */
  predicate TailsOld(b: Blocks) {
    forall key :: key in b.store && key.Tail? ==> key.id < b.nextId
  }

  /** The store never holds more blocks than the budget allows. */
  predicate Roomy(b: Blocks) {
    |b.store.Keys| <= b.capacity
  }

  lemma RoomyFewer(b: Blocks, b': Blocks)
    requires Roomy(b) && b'.capacity == b.capacity && forall key :: key in b'.store ==> key in b.store
    ensures Roomy(b')
  {
    assert b'.store.Keys <= b.store.Keys;
    SubsetSize(b'.store.Keys, b.store.Keys);
  }

  ghost predicate BlocksInv(net: Net, b: Blocks) {
    SysInv(net, b.s) && b.s.pool.bs >= 1 && ManifestsGood(b) && LedgerGood(b) && TailsOld(b) && Roomy(b)
    && StoreRight(net, b.s.pool.bs, b.manifests, b.store)
  }

  // ----- the ledger -----

  lemma SubsetSize<X>(a: set<X>, b: set<X>)
    requires a <= b
    ensures |b - a| == |b| - |a|
  {
    assert b == (b - a) + a;
  }

  lemma MarkedSizes(h: set<nat>, cohorts: map<nat, bool>)
    requires h <= cohorts.Keys
    ensures |Marked(h, cohorts, true)| + |Marked(h, cohorts, false)| == |h|
  {
    assert Marked(h, cohorts, true) + Marked(h, cohorts, false) == h;
  }

  lemma PruneGood(b: Blocks)
    requires LedgerGood(b)
    ensures LedgerGood(Prune(b)) && Prune(b) == b.(ledger := Prune(b).ledger)
  {
    var gone := Gone(b);
    assert gone <= b.ledger.cohorts.Keys;
    SubsetSize(gone, b.ledger.cohorts.Keys);
    MarkedSizes(gone, b.ledger.cohorts);
    assert (b.ledger.cohorts - gone).Keys == b.ledger.cohorts.Keys - gone;
    forall key | key in b.store
      ensures b.store[key].handle !in gone
    {
      assert Stored(b.store, b.store[key].handle);
    }
  }

  lemma LedgerShrinks(b: Blocks, b': Blocks)
    requires LedgerGood(b) && b'.ledger == b.ledger && b'.nextHandle == b.nextHandle && b'.capacity == b.capacity
    requires forall key :: key in b'.store ==> key in b.store && b'.store[key] == b.store[key]
    ensures LedgerGood(b') && (Roomy(b) ==> Roomy(b'))
  {
    if Roomy(b) {
      RoomyFewer(b, b');
    }
  }

  lemma MarkUsedGood(b: Blocks, k: nat, r: Req)
    requires LedgerGood(b)
    ensures var b' := MarkUsed(b, k, r); LedgerGood(b') && b' == b.(uses := b'.uses, ledger := b'.ledger)
  {
    var b' := MarkUsed(b, k, r);
    assert b'.ledger.cohorts.Keys == b.ledger.cohorts.Keys;
  }

  lemma {:induction false} MarkAllGood(b: Blocks, reqs: seq<Req>, ids: seq<nat>)
    requires LedgerGood(b)
    ensures var b' := MarkAll(b, reqs, ids); LedgerGood(b') && b' == b.(uses := b'.uses, ledger := b'.ledger)
    decreases |ids|
  {
    hide LedgerGood, MarkUsed;
    if ids != [] {
      if ids[0] < |reqs| {
        MarkUsedGood(b, ids[0], reqs[ids[0]]);
      }
      MarkAllGood(if ids[0] < |reqs| then MarkUsed(b, ids[0], reqs[ids[0]]) else b, reqs, ids[1..]);
    }
  }

  /** What `report` shows: blocks whose restore was used, blocks written in vain, and blocks
      that may still be restored. */
  function Used(b: Blocks): nat {
    b.ledger.retiredUsed + |Marked(b.ledger.cohorts.Keys, b.ledger.cohorts, true)|
  }

  function Idle(b: Blocks, stored: bool): set<nat> {
    set h | h in b.ledger.cohorts && !b.ledger.cohorts[h] && Stored(b.store, h) == stored
  }

  function StillStored(b: Blocks): nat {
    |Idle(b, true)|
  }

  function Unused(b: Blocks): nat {
    b.ledger.retiredUnused + |Idle(b, false)|
  }

  lemma DisjointSize<X>(a: set<X>, b: set<X>, all: set<X>)
    requires a !! b && a + b == all
    ensures |all| == |a| + |b|
  {
  }

  /** Every committed block is used, unused or pending, exactly once. */
  lemma LedgerBalances(b: Blocks)
    requires LedgerGood(b)
    ensures b.ledger.committed == Used(b) + Unused(b) + StillStored(b)
  {
    hide Stored;
    MarkedSizes(b.ledger.cohorts.Keys, b.ledger.cohorts);
    DisjointSize(Idle(b, true), Idle(b, false), Marked(b.ledger.cohorts.Keys, b.ledger.cohorts, false));
  }

  // ----- committing -----

  /** What is to be stored is right for the manifest, block by block. */
  ghost predicate SourceRight(net: Net, m: Manifest, source: Memory) {
    m.bs >= 1 && |source| == Size(m) && forall i :: 0 <= i < |source| ==> Right(net, m.tokens, m.bs, m.valid, i, source[i])
  }

  /** No registered manifest names the tail that is being written. */
  predicate NewId(b: Blocks, m: Manifest) {
    forall k :: k in b.manifests ==> b.manifests[k].id != m.id
  }

  lemma CommitOneRight(net: Net, m: Manifest, source: Memory, b: Blocks, i: nat)
    requires SourceRight(net, m, source) && NewId(b, m) && i < |source| && StoreRight(net, m.bs, b.manifests, b.store)
    ensures StoreRight(net, m.bs, b.manifests, b.store[KeyAt(m, i) := Replica(b.nextHandle, source[i])])
  {
    hide Right, ChainRight, ChainHash;
    if i * m.bs + m.bs <= m.valid {
      RightIsChain(net, m.bs, m.tokens, m.valid, i, source[i]);
    }
  }

  lemma CommitOneLedger(b: Blocks, key: HostKey, data: seq<Cell>)
    requires LedgerGood(b)
    ensures var h := b.nextHandle;
      LedgerGood(b.(store := b.store[key := Replica(h, data)], nextHandle := h + 1,
                    ledger := b.ledger.(cohorts := b.ledger.cohorts[h := false], committed := b.ledger.committed + 1)))
  {
    AddKey(b.ledger.cohorts, b.nextHandle);
  }

  lemma AddKey(cohorts: map<nat, bool>, h: nat)
    requires h !in cohorts
    ensures |cohorts[h := false].Keys| == |cohorts.Keys| + 1
    ensures forall x :: x in cohorts[h := false] <==> x in cohorts || x == h
  {
    assert cohorts[h := false].Keys == cohorts.Keys + {h};
  }

  lemma {:induction false} CommitKeysInv(net: Net, m: Manifest, source: Memory, b: Blocks, i: nat, reached: nat)
    requires SourceRight(net, m, source) && NewId(b, m) && reached <= |source| && i <= reached
    requires LedgerGood(b) && StoreRight(net, m.bs, b.manifests, b.store)
    requires forall j: nat :: j < i ==> KeyAt(m, j) in b.store
    ensures var b' := CommitKeys(m, source, b, i, reached);
      && LedgerGood(b') && StoreRight(net, m.bs, b'.manifests, b'.store)
      && b' == b.(store := b'.store, nextHandle := b'.nextHandle, ledger := b'.ledger)
      && (forall key :: key in b.store ==> key in b'.store && b'.store[key] == b.store[key])
      && (forall j: nat :: j < reached ==> KeyAt(m, j) in b'.store)
      && (forall key :: key in b'.store && key !in b.store ==> exists j: nat :: j < reached && key == KeyAt(m, j) && b'.store[key].data == source[j])
    decreases reached - i
  {
    hide LedgerGood, StoreRight, SourceRight, KeyAt, NewId;
    SourceSize(net, m, source);
    if i < reached {
      if KeyAt(m, i) in b.store {
        CommitKeysInv(net, m, source, b, i + 1, reached);
      } else {
        CommitOneRight(net, m, source, b, i);
        CommitOneLedger(b, KeyAt(m, i), source[i]);
        var h := b.nextHandle;
        var b1 := b.(store := b.store[KeyAt(m, i) := Replica(h, source[i])], nextHandle := h + 1,
                     ledger := b.ledger.(cohorts := b.ledger.cohorts[h := false], committed := b.ledger.committed + 1));
        SameNewId(b, b1, m);
        CommitKeysInv(net, m, source, b1, i + 1, reached);
      }
    }
  }

  lemma SourceSize(net: Net, m: Manifest, source: Memory)
    requires SourceRight(net, m, source)
    ensures m.bs >= 1 && |source| == Size(m)
  {
    hide Right;
  }

  lemma SameNewId(b: Blocks, b': Blocks, m: Manifest)
    requires NewId(b, m) && b'.manifests == b.manifests
    ensures NewId(b', m)
  {
  }

  // ----- saving keeps the invariant -----

  lemma StoreFewer(net: Net, bs: nat, manifests: map<nat, Manifest>, store: map<HostKey, Replica>, store': map<HostKey, Replica>)
    requires bs >= 1 && StoreRight(net, bs, manifests, store)
    requires forall key :: key in store' ==> key in store && store'[key] == store[key]
    ensures StoreRight(net, bs, manifests, store')
  {
    hide ReplicaRight;
  }

  /** Only one block of a manifest can be its private tail: the partial last one. */
  lemma TailIsLast(m: Manifest, i: nat)
    requires m.bs >= 1 && i < Size(m) && KeyAt(m, i).Tail?
    ensures i == m.valid / m.bs && KeyAt(m, i) == Tail(m.owner, m.id)
  {
    hide ChainHash;
    BlocksNeededForMeaning(m.valid, m.bs, i);
    DivModUnique(m.valid, i, m.valid - i * m.bs, m.bs);
  }

  /** Registering a manifest all of whose blocks were just committed. */
  lemma RegisterRight(net: Net, m: Manifest, source: Memory, b: Blocks, b1: Blocks)
    requires SourceRight(net, m, source) && FreshId(b, m.id)
    requires StoreRight(net, m.bs, b1.manifests, b1.store) && b1.manifests == b.manifests
    requires forall key :: key in b1.store && key !in b.store ==> exists j: nat :: j < |source| && key == KeyAt(m, j) && b1.store[key].data == source[j]
    ensures StoreRight(net, m.bs, b.manifests[m.owner := m], b1.store)
  {
    hide Right, ChainRight, KeyAt, BlocksNeededFor;
    forall key | key in b1.store
      ensures ReplicaRight(net, m.bs, b.manifests[m.owner := m], key, b1.store[key].data)
    {
      assert ReplicaRight(net, m.bs, b1.manifests, key, b1.store[key].data);
      if key.Tail? && key.owner == m.owner && key.id == m.id {
        assert key !in b.store;
        var j: nat :| j < |source| && key == KeyAt(m, j) && b1.store[key].data == source[j];
        TailIsLast(m, j);
        assert Right(net, m.tokens, m.bs, m.valid, j, source[j]);
      }
    }
  }

  lemma ExportIsRight(net: Net, b: Blocks, k: nat, m: Manifest)
    requires SysInv(net, b.s) && k < |b.s.reqs| && b.s.pool.bs >= 1
    requires m.bs == b.s.pool.bs && m.tokens == b.s.reqs[k].tokens && m.valid == b.s.reqs[k].computed
    ensures var r := b.s.reqs[k];
      && Size(m) <= |r.table| && InPool(r.table, |b.s.mem|) && r.computed <= |r.tokens|
      && SourceRight(net, m, Exported(b.s.mem, r.table[..Size(m)], m.bs, r.computed))
  {
    hide SysInv, Holds, Exported, Local, Rest, Right, BlocksNeededFor;
    var r := b.s.reqs[k];
    O.KvOf(net, b.s);
    At(net, b.s, k);
    O.SavedContents(net, b.s.pool, b.s.mem, Rest(b.s.reqs, k), r);
    var buffer := Exported(b.s.mem, r.table[..Size(m)], m.bs, r.computed);
    forall i | 0 <= i < |buffer|
      ensures Right(net, m.tokens, m.bs, m.valid, i, buffer[i])
    {
      HeldBlockIsRight(net, buffer, m.bs, Identity(|buffer|), m.tokens, m.valid, i);
    }
  }

  /** An id that no manifest and no stored tail carries yet. */
  predicate FreshId(b: Blocks, id: nat) {
    && id < b.nextId && (forall k :: k in b.manifests ==> b.manifests[k].id != id)
    && (forall key :: key in b.store && key.Tail? ==> key.id != id)
  }

  lemma FreshIsNew(b: Blocks, m: Manifest)
    requires FreshId(b, m.id)
    ensures NewId(b, m)
  {
  }

  /** The store still fits the budget with every one of these keys in it. */
  predicate RoomFor(b: Blocks, keys: set<HostKey>) {
    |b.store.Keys + keys| <= b.capacity
  }

  lemma RoomWithin(b: Blocks, b': Blocks, keys: set<HostKey>, keys': set<HostKey>)
    requires RoomFor(b, keys) && b'.capacity == b.capacity
    requires forall key :: key in b'.store || key in keys' ==> key in b.store || key in keys
    ensures RoomFor(b', keys') && Roomy(b')
  {
    assert b'.store.Keys + keys' <= b.store.Keys + keys;
    SubsetSize(b'.store.Keys + keys', b.store.Keys + keys);
    SubsetSize(b'.store.Keys, b'.store.Keys + keys');
  }

  /** What a save does to the request: nothing at all unless it succeeds. */
  ghost predicate SaveOutcome(b: Blocks, k: nat, id: nat, b': Blocks, result: SaveResult) {
    && k < |b.s.reqs| == |b'.s.reqs|
    && (result == Saved ==> OnBooks(b', k) && b'.s.reqs[k].residency == OnCpu && b'.manifests[k].valid == b.s.reqs[k].computed && b'.manifests[k].id == id)
    && (result != Saved ==> b'.s == b.s && b'.manifests == b.manifests)
  }

  /** What it leaves of everything else. */
  ghost predicate SaveFrame(b: Blocks, k: nat, keys: set<HostKey>, b': Blocks) {
    && b'.nextId == b.nextId && b'.weights == b.weights && b'.capacity == b.capacity && b'.uses == b.uses && SameFrame(b.s.pool, b'.s.pool)
    && b'.s.mem == b.s.mem && |b'.s.reqs| == |b.s.reqs|
    && (forall j :: 0 <= j < |b.s.reqs| && j != k ==> b'.s.reqs[j] == b.s.reqs[j])
    && (forall j :: j != k ==> (j in b'.manifests <==> j in b.manifests))
    && (forall j :: j in b'.manifests && j != k ==> j in b.manifests && b'.manifests[j] == b.manifests[j])
    && (forall key :: key in b'.store ==> key in b.store || key in keys)
  }

  lemma CommittedKeys(net: Net, b: Blocks, m: Manifest, source: Memory, upto: nat)
    requires SourceRight(net, m, source) && FreshId(b, m.id) && upto <= |source| && RoomFor(b, KeysOf(m))
    requires LedgerGood(b) && StoreRight(net, m.bs, b.manifests, b.store) && TailsOld(b)
    ensures var b1 := CommitKeys(m, source, b, 0, upto);
      && LedgerGood(b1) && StoreRight(net, m.bs, b1.manifests, b1.store) && TailsOld(b1) && RoomFor(b1, KeysOf(m)) && Roomy(b1)
      && b1 == b.(store := b1.store, nextHandle := b1.nextHandle, ledger := b1.ledger)
      && (forall key :: key in b1.store ==> key in b.store || key in KeysOf(m))
      && (forall key :: key in b1.store && key !in b.store ==> exists j: nat :: j < |source| && key == KeyAt(m, j) && b1.store[key].data == source[j])
  {
    hide LedgerGood, StoreRight, SourceRight, NewId, KeyAt, CommitKeys, BlocksNeededFor;
    FreshIsNew(b, m);
    SourceSize(net, m, source);
    CommitKeysInv(net, m, source, b, 0, upto);
    var b1 := CommitKeys(m, source, b, 0, upto);
    forall key | key in b1.store && key !in b.store
      ensures key in KeysOf(m) && (key.Tail? ==> key.id == m.id)
    {
      var j: nat :| j < upto && key == KeyAt(m, j) && b1.store[key].data == source[j];
      KeyIds(m, j);
    }
    RoomWithin(b, b1, KeysOf(m), KeysOf(m));
  }

  lemma KeyIds(m: Manifest, j: nat)
    ensures KeyAt(m, j).Tail? ==> KeyAt(m, j).id == m.id
    ensures j < Size(m) ==> KeyAt(m, j) in KeysOf(m)
  {
    hide ChainHash, BlocksNeededFor;
  }

  lemma SaveMemberInv(net: Net, b: Blocks, k: nat, id: nat, reached: nat)
    requires BlocksInv(net, b) && Savable(b, k) && b.s.reqs[k].status == Paused && FreshId(b, id) && RoomFor(b, KeysOf(ManifestOf(b, k, id)))
    ensures var (b', result) := SaveMember(b, k, id, reached);
      && BlocksInv(net, b') && SaveOutcome(b, k, id, b', result) && SaveFrame(b, k, KeysOf(ManifestOf(b, k, id)), b')
      && result == if reached < Size(ManifestOf(b, k, id)) then Failed else Saved
  {
    hide SysInv, DecrefAll, Exported, BlocksNeededFor, StoreRight, LedgerGood, Prune, CommitKeys, DropTails, SourceRight, FreshId, ManifestsGood, TailsOld, OnBooks, KeyAt, KeysOf, RoomFor, Roomy;
    var r := b.s.reqs[k];
    var m := ManifestOf(b, k, id);
    ExportIsRight(net, b, k, m);
    var source := Exported(b.s.mem, r.table[..Size(m)], m.bs, r.computed);
    SourceSize(net, m, source);
    var upto := if reached < Size(m) then reached else Size(m);
    CommittedKeys(net, b, m, source, upto);
    var b1 := CommitKeys(m, source, b, 0, upto);
    if reached < Size(m) {
      SaveFails(net, b, b1, k, KeysOf(m));
    } else {
      SaveCommits(net, b, k, m, source, b1);
    }
  }

  /** Same engine, same manifests, a newer id, another store. */
  lemma ManifestsKept(b: Blocks, b': Blocks)
    requires ManifestsGood(b) && b'.s == b.s && b'.manifests == b.manifests && b'.nextId >= b.nextId && b'.weights == b.weights
    ensures ManifestsGood(b')
  {
  }

  lemma DropTailsFewer(b: Blocks, manifests: map<nat, Manifest>)
    ensures forall key :: key in DropTails(manifests, b.store) ==> key in b.store && DropTails(manifests, b.store)[key] == b.store[key]
  {
  }

  lemma TailsFewer(b: Blocks, b': Blocks)
    requires TailsOld(b) && b'.nextId >= b.nextId && forall key :: key in b'.store ==> key in b.store
    ensures TailsOld(b')
  {
  }

  lemma PruneOnly(net: Net, b: Blocks)
    requires BlocksInv(net, b)
    ensures BlocksInv(net, Prune(b)) && Prune(b) == b.(ledger := Prune(b).ledger)
  {
    hide SysInv, StoreRight, LedgerGood, Prune, TailsOld;
    PruneGood(b);
    TailsFewer(b, Prune(b));
    ManifestsKept(b, Prune(b));
  }

  lemma SaveFails(net: Net, b: Blocks, b1: Blocks, k: nat, keys: set<HostKey>)
    requires BlocksInv(net, b) && b1 == b.(store := b1.store, nextHandle := b1.nextHandle, ledger := b1.ledger) && k < |b.s.reqs|
    requires LedgerGood(b1) && StoreRight(net, b.s.pool.bs, b1.manifests, b1.store) && TailsOld(b1) && Roomy(b1)
    requires forall key :: key in b1.store ==> key in b.store || key in keys
    ensures var b' := Prune(b1.(store := DropTails(b1.manifests, b1.store)));
      BlocksInv(net, b') && b'.s == b.s && b'.manifests == b.manifests && SaveFrame(b, k, keys, b')
  {
    hide SysInv, StoreRight, LedgerGood, Prune, DropTails, TailsOld, ManifestsGood, Roomy;
    DropTailsFewer(b1, b1.manifests);
    var b2 := b1.(store := DropTails(b1.manifests, b1.store));
    LedgerShrinks(b1, b2);
    TailsFewer(b1, b2);
    StoreFewer(net, b.s.pool.bs, b1.manifests, b1.store, b2.store);
    ManifestsKept(b, b2);
    PruneOnly(net, b2);
  }

  lemma OffloadedSys(net: Net, s: Sys, k: nat, r': Req)
    requires SysInv(net, s) && k < |s.reqs| && s.reqs[k].status == Paused && r' == O.OffDevice(s.reqs[k], r'.residency, r'.snapshot).(epoch := r'.epoch)
    ensures var p := DecrefAll(s.pool, s.reqs[k].table); SysInv(net, SetReq(s, k, p, r')) && SameFrame(s.pool, p)
  {
    hide SysInv, DecrefAll, Local, Frame, Rest;
    var r := s.reqs[k];
    O.KvOf(net, s);
    At(net, s, k);
    DeallocateStep(net, s.pool, s.mem, Rest(s.reqs, k), r, r');
    O.PausedStep(net, s, k, DecrefAll(s.pool, r.table), s.mem, r');
    DecrefAllFrame(s.pool, r.table);
    assert SetReq(s, k, DecrefAll(s.pool, r.table), r').(mem := s.mem) == SetReq(s, k, DecrefAll(s.pool, r.table), r');
  }

  lemma FreshLess(b: Blocks, id: nat)
    requires FreshId(b, id)
    ensures id < b.nextId
  {
  }

  lemma SaveCommits(net: Net, b: Blocks, k: nat, m: Manifest, source: Memory, b1: Blocks)
    requires BlocksInv(net, b) && k < |b.s.reqs| && b.s.reqs[k].status == Paused && FreshId(b, m.id)
    requires m == ManifestOf(b, k, m.id)
    requires b1 == b.(store := b1.store, nextHandle := b1.nextHandle, ledger := b1.ledger)
    requires LedgerGood(b1) && StoreRight(net, m.bs, b1.manifests, b1.store) && TailsOld(b1) && SourceRight(net, m, source) && Roomy(b1)
    requires forall key :: key in b1.store && key !in b.store ==> exists j: nat :: j < |source| && key == KeyAt(m, j) && b1.store[key].data == source[j]
    requires forall key :: key in b1.store ==> key in b.store || key in KeysOf(m)
    requires m.valid <= |m.tokens|
    ensures var r := b.s.reqs[k]; var manifests := b1.manifests[k := m];
      var r' := O.OffDevice(r, OnCpu, Some(m.id)).(epoch := b.s.pool.epoch);
      var b' := Prune(b1.(s := SetReq(b.s, k, DecrefAll(b.s.pool, r.table), r'), manifests := manifests, store := DropTails(manifests, b1.store)));
      BlocksInv(net, b') && SaveOutcome(b, k, m.id, b', Saved) && SaveFrame(b, k, KeysOf(m), b')
  {
    hide SysInv, DecrefAll, StoreRight, LedgerGood, Prune, DropTails, SourceRight, TailsOld, KeyAt, KeysOf, BlocksNeededFor, Roomy, ManifestsGood, FreshId;
    var r := b.s.reqs[k];
    var manifests := b1.manifests[k := m];
    var r' := O.OffDevice(r, OnCpu, Some(m.id)).(epoch := b.s.pool.epoch);
    OffloadedSys(net, b.s, k, r');
    FreshLess(b, m.id);
    var s' := SetReq(b.s, k, DecrefAll(b.s.pool, r.table), r');
    RegisterRight(net, m, source, b, b1);
    DropTailsFewer(b1, manifests);
    var b2 := b1.(s := s', manifests := manifests, store := DropTails(manifests, b1.store));
    LedgerShrinks(b1, b2);
    TailsFewer(b1, b2);
    StoreFewer(net, m.bs, manifests, b1.store, b2.store);
    SavedManifests(b, k, m, b2);
    PruneOnly(net, b2);
  }

  lemma SavedManifests(b: Blocks, k: nat, m: Manifest, b2: Blocks)
    requires ManifestsGood(b) && k < |b.s.reqs| == |b2.s.reqs| && b2.manifests == b.manifests[k := m] && b2.nextId == b.nextId && b2.weights == b.weights
    requires m.owner == k && m.id < b.nextId && m.bs == b.s.pool.bs && m.valid <= |m.tokens| && m.weights == b.weights && m.epoch == b.s.pool.epoch
    requires b2.s.pool.bs == b.s.pool.bs && b2.s.pool.epoch == b.s.pool.epoch
    requires forall j :: 0 <= j < |b.s.reqs| && j != k ==> b2.s.reqs[j] == b.s.reqs[j]
    requires b2.s.reqs[k].status == Paused && b2.s.reqs[k].table == [] && b2.s.reqs[k].computed == 0 && b2.s.reqs[k].tokens == m.tokens
    ensures ManifestsGood(b2) && OnBooks(b2, k)
  {
    forall j | 0 <= j < |b2.s.reqs| && b2.s.reqs[j].residency == OnCpu
      ensures OnBooks(b2, j)
    {
      assert j != k ==> OnBooks(b, j);
    }
  }

  // ----- restoring keeps the invariant -----

  /** Within the plan every block is on the device or on the host; it ends only at the end of
      the history or where neither has the next block. */
  lemma {:induction false} PlanMeaning(p: Pool, store: map<HostKey, Replica>, m: Manifest, i: nat)
    requires p.bs >= 1 && i <= Size(m)
    ensures var n := PlanLength(p, store, m, i);
      && i <= n <= Size(m)
      && (forall j: nat :: i <= j < n ==> Hit(p, m.tokens, m.valid, j).Some? || KeyAt(m, j) in store)
      && (n < Size(m) ==> Hit(p, m.tokens, m.valid, n).None? && KeyAt(m, n) !in store)
    decreases Size(m) - i
  {
    hide Hit, KeyAt, BlocksNeededFor;
    if i < Size(m) && (Hit(p, m.tokens, m.valid, i).Some? || KeyAt(m, i) in store) {
      PlanMeaning(p, store, m, i + 1);
    }
  }

  /** Cutting the history at the plan's end changes no hit within the plan. */
  lemma SameHits(p: Pool, m: Manifest, n: nat, j: nat)
    requires p.bs == m.bs && j < n
    ensures Hit(p, m.tokens, Reach(m, n), j) == Hit(p, m.tokens, m.valid, j)
  {
    hide ChainHash, Lookup;
    MulOrder(j, n, m.bs);
  }

  /** A stored block is right for the part of the history that the plan covers. */
  lemma StoredIsRight(net: Net, b: Blocks, k: nat, m: Manifest, n: nat, j: nat)
    requires b.s.pool.bs >= 1 && StoreRight(net, b.s.pool.bs, b.manifests, b.store) && k in b.manifests && b.manifests[k] == m && m.owner == k
    requires m.bs == b.s.pool.bs && m.valid <= |m.tokens| && j < n <= Size(m) && KeyAt(m, j) in b.store
    ensures Right(net, m.tokens, m.bs, Reach(m, n), j, b.store[KeyAt(m, j)].data)
  {
    hide Right, ChainRight, ChainHash, BlocksNeededFor;
    assert ReplicaRight(net, m.bs, b.manifests, KeyAt(m, j), b.store[KeyAt(m, j)].data);
    if j * m.bs + m.bs <= m.valid {
      MulOrder(j, n, m.bs);
      ChainIsRight(net, m.bs, m.tokens, Reach(m, n), j, b.store[KeyAt(m, j)].data);
    } else {
      TailIsLast(m, j);
      LastCovers(m, n, j);
    }
  }

  lemma LastCovers(m: Manifest, n: nat, j: nat)
    requires m.bs >= 1 && j < n <= Size(m) && j * m.bs + m.bs > m.valid
    ensures Reach(m, n) == m.valid
  {
    MulOrder(j, n, m.bs);
  }

  lemma PlanSupplies(net: Net, b: Blocks, k: nat, m: Manifest)
    requires b.s.pool.bs >= 1 && StoreRight(net, b.s.pool.bs, b.manifests, b.store) && k in b.manifests && b.manifests[k] == m && m.owner == k
    requires m.bs == b.s.pool.bs && m.valid <= |m.tokens|
    ensures var n := PlanLength(b.s.pool, b.store, m, 0); var hits := DeviceHits(b.s.pool, m.tokens, Reach(m, n), n);
      Supplied(net, b.s.pool.bs, m.tokens, Reach(m, n), hits, HostSources(b.store, m, hits))
  {
    hide Right, StoreRight, Hit, KeyAt, Reach, BlocksNeededFor;
    PlanMeaning(b.s.pool, b.store, m, 0);
    var n := PlanLength(b.s.pool, b.store, m, 0);
    var hits := DeviceHits(b.s.pool, m.tokens, Reach(m, n), n);
    var sources := HostSources(b.store, m, hits);
    forall i | 0 <= i < |hits|
      ensures sources[i].Some? <==> hits[i].None?
      ensures sources[i].Some? ==> Right(net, m.tokens, m.bs, Reach(m, n), i, sources[i].value)
    {
      SameHits(b.s.pool, m, n, i);
      assert Hit(b.s.pool, m.tokens, m.valid, i).Some? || KeyAt(m, i) in b.store;
      if hits[i].None? {
        StoredIsRight(net, b, k, m, n, i);
      }
    }
  }

  /** What a restore leaves: the covered prefix exactly, or everything as it was. */
  ghost predicate RestoreOutcome(net: Net, b: Blocks, k: nat, m: Manifest, b': Blocks, ok: bool) {
    && k < |b.s.reqs| == |b'.s.reqs| && b'.s.pool.bs == b.s.pool.bs >= 1 && b'.s.pool.epoch == b.s.pool.epoch
    && b' == b.(s := b'.s, uses := b'.uses)
    && (forall j :: 0 <= j < |b.s.reqs| && j != k ==> b'.s.reqs[j] == b.s.reqs[j])
    && b'.s.reqs[k].tokens == b.s.reqs[k].tokens && b'.s.reqs[k].status == Paused
    && (if ok then
          && b'.s.reqs[k].computed == Reach(m, PlanLength(b.s.pool, b.store, m, 0)) && b'.s.reqs[k].residency == OnGpu
          && Holds(net, b'.s.mem, b'.s.reqs[k].table, m.tokens, b'.s.reqs[k].computed)
        else
          && b'.s.mem == b.s.mem && b'.uses == b.uses && b'.s.reqs[k].table == [] && b'.s.reqs[k].computed == 0
          && RolledBack(b.s.pool, Rest(b.s.reqs, k), b'.s.pool))
  }

  lemma RefusedSys(net: Net, s: Sys, k: nat, q: Pool)
    requires SysInv(net, s) && k < |s.reqs| && s.reqs[k].status == Paused && RolledBack(s.pool, Rest(s.reqs, k), q)
    ensures var r' := s.reqs[k].(table := [], computed := 0, scheduled := 0, residency := OnCpu);
      SysInv(net, SetReq(s, k, q, r'))
  {
    hide SysInv, Local, Frame, Rest, RolledBack;
    var r' := s.reqs[k].(table := [], computed := 0, scheduled := 0, residency := OnCpu);
    O.KvOf(net, s);
    At(net, s, k);
    RefusedLocal(net, s.pool, s.mem, Rest(s.reqs, k), s.reqs[k], q, r');
    O.PausedStep(net, s, k, q, s.mem, r');
    assert SetReq(s, k, q, r').(mem := s.mem) == SetReq(s, k, q, r');
  }

  lemma RebuiltSys(net: Net, s: Sys, k: nat, valid: nat, hits: seq<Option<nat>>, q: Pool, sources: Sources, r': Req)
    requires SysInv(net, s) && k < |s.reqs| && s.reqs[k].status == Paused && s.pool.bs >= 1
    requires Assembled(s.pool, Rest(s.reqs, k), hits, q, r'.table) && HitsValid(s.pool, r'.tokens, valid, hits)
    requires Supplied(net, s.pool.bs, r'.tokens, valid, hits, sources)
    requires valid <= |hits| * s.pool.bs && valid <= |r'.tokens|
    requires r' == s.reqs[k].(table := r'.table, computed := valid, scheduled := 0, epoch := r'.epoch, residency := r'.residency,
                              cached := r'.cached, published := 0, parent := Root)
    ensures var mem' := Imported(s.mem, r'.table, sources, 0);
      SysInv(net, SetReq(s, k, q, r').(mem := mem')) && Holds(net, mem', r'.table, r'.tokens, valid)
  {
    hide SysInv, Local, Frame, Rest, Holds, Imported, Assembled, Supplied, HitsValid;
    O.KvOf(net, s);
    At(net, s, k);
    O.AssembledSize(s.pool, Rest(s.reqs, k), hits, q, r'.table);
    AssembledLocal(net, s.pool, s.mem, Rest(s.reqs, k), s.reqs[k], valid, hits, q, sources, r');
    var mem' := Imported(s.mem, r'.table, sources, 0);
    O.LocalHolds(net, q, mem', Rest(s.reqs, k), r');
    O.PausedStep(net, s, k, q, mem', r');
  }

  lemma RestoreBlocksInv(net: Net, b: Blocks, k: nat, m: Manifest, copyFails: bool)
    requires BlocksInv(net, b) && k < |b.s.reqs| && b.s.reqs[k].residency == OnCpu && k in b.manifests && b.manifests[k] == m
    ensures var (b', ok) := RestoreBlocks(b, k, m, copyFails);
      SysInv(net, b'.s) && RestoreOutcome(net, b, k, m, b', ok)
  {
    hide SysInv, Local, Frame, Rest, BlocksNeededFor, Holds, RebuildTable, DeviceHits, Imported, Assembled, RolledBack, Supplied, HitsValid, Pins,
         StoreRight, LedgerGood, TailsOld, HostSources, ImportedHandles, PlanLength, Reach, PoolInv;
    assert OnBooks(b, k);
    var s, p, r := b.s, b.s.pool, b.s.reqs[k];
    var rest := Rest(s.reqs, k);
    O.KvOf(net, s);
    At(net, s, k);
    LocalPool(net, p, s.mem, rest, r);
    assert rest + multiset(r.table) == rest;
    var n := PlanLength(p, b.store, m, 0);
    var valid := Reach(m, n);
    var hits := DeviceHits(p, r.tokens, valid, n);
    DeviceHitsValid(p, rest, r.tokens, valid, n);
    PinsCount(hits);
    RestoreFrame(b, k, m, copyFails);
    var missing := |hits| - |Pins(hits)|;
    var needed := missing + if valid % p.bs == 0 then 1 else 0;
    RebuildTableKeeps(p, rest, r.tokens, valid, hits, needed, copyFails);
    ReachBounds(m, n);
    match RebuildTable(p, hits, needed, copyFails)
    case Refused(q) => RefusedSys(net, s, k, q);
    case Rebuilt(q, table) =>
      var r' := r.(table := table, computed := valid, scheduled := 0, epoch := p.epoch, residency := OnGpu,
                   cached := |Pins(hits)| * p.bs, published := 0, parent := Root);
      PlanSupplies(net, b, k, m);
      RebuiltSys(net, s, k, valid, hits, q, HostSources(b.store, m, hits), r');
  }

  /** The device blocks that a restore of `m` shares, and so pins. */
  function SharedBlocks(b: Blocks, m: Manifest): seq<nat>
    requires b.s.pool.bs >= 1
  {
    var n := PlanLength(b.s.pool, b.store, m, 0);
    Pins(DeviceHits(b.s.pool, m.tokens, Reach(m, n), n))
  }

  /** Free and idle blocks that the plan does not pin cover what it does not share, and one more
      block if the last one is full. */
  predicate RoomToRestore(b: Blocks, m: Manifest)
    requires b.s.pool.bs >= 1
  {
    var n, pins := PlanLength(b.s.pool, b.store, m, 0), SharedBlocks(b, m);
    n - |pins| + (if Reach(m, n) % b.s.pool.bs == 0 then 1 else 0) <= Available(b.s.pool) - |IdlePins(b.s.pool, pins)|
  }

  lemma RestoreBlocksExact(net: Net, b: Blocks, k: nat, m: Manifest, copyFails: bool)
    requires BlocksInv(net, b) && k < |b.s.reqs| && b.s.reqs[k].residency == OnCpu && k in b.manifests && b.manifests[k] == m
    ensures b.s.pool.bs >= 1
    ensures RestoreBlocks(b, k, m, copyFails).1 <==> !copyFails && RoomToRestore(b, m)
  {
    hide SysInv, Rest, BlocksNeededFor, Holds, RebuildTable, DeviceHits, Imported, HitsValid, Pins, StoreRight, LedgerGood, TailsOld,
         HostSources, ImportedHandles, PlanLength, Reach, PoolInv, Available, IdlePins;
    assert OnBooks(b, k);
    var p := b.s.pool;
    O.PausedPool(net, b.s, k);
    var n := PlanLength(p, b.store, m, 0);
    var valid := Reach(m, n);
    var hits := DeviceHits(p, m.tokens, valid, n);
    DeviceHitsValid(p, Rest(b.s.reqs, k), m.tokens, valid, n);
    PinsCount(hits);
    RebuildExact(p, Rest(b.s.reqs, k), m.tokens, valid, hits, |hits| - |Pins(hits)| + if valid % p.bs == 0 then 1 else 0, copyFails);
  }

  lemma ReachBounds(m: Manifest, n: nat)
    ensures Reach(m, n) <= m.valid && Reach(m, n) <= n * m.bs
  {
  }

  lemma RestoreFrame(b: Blocks, k: nat, m: Manifest, copyFails: bool)
    requires k < |b.s.reqs| && b.s.pool.bs >= 1
    ensures SameFrame(b.s.pool, RestoreBlocks(b, k, m, copyFails).0.s.pool)
  {
    hide DeviceHits, RebuildTable, Imported, Pins, PlanLength, HostSources, ImportedHandles, Reach;
    var n := PlanLength(b.s.pool, b.store, m, 0);
    var valid := Reach(m, n);
    var hits := DeviceHits(b.s.pool, b.s.reqs[k].tokens, valid, n);
    PinsCount(hits);
    T.RebuildFrame(b.s.pool, hits, |hits| - |Pins(hits)| + if valid % b.s.pool.bs == 0 then 1 else 0, copyFails);
  }

  // ----- resuming -----

  /** Engine changed for request `k` only, which is not on the host afterwards; books kept. */
  lemma BooksElsewhere(b: Blocks, b': Blocks, k: nat)
    requires ManifestsGood(b) && k < |b.s.reqs| == |b'.s.reqs| && b'.manifests == b.manifests && b'.nextId == b.nextId && b'.weights == b.weights
    requires b'.s.pool.bs == b.s.pool.bs && b'.s.pool.epoch == b.s.pool.epoch
    requires forall j :: 0 <= j < |b.s.reqs| && j != k ==> b'.s.reqs[j] == b.s.reqs[j]
    requires b'.s.reqs[k].residency == OnCpu ==> OnBooks(b', k)
    ensures ManifestsGood(b')
  {
    forall j | 0 <= j < |b'.s.reqs| && b'.s.reqs[j].residency == OnCpu
      ensures OnBooks(b', j)
    {
      assert j != k ==> OnBooks(b, j);
    }
  }

  /** Only the engine and the awaited uses differ. */
  lemma RestKept(net: Net, b: Blocks, b': Blocks)
    requires BlocksInv(net, b) && b' == b.(s := b'.s, uses := b'.uses)
    requires SysInv(net, b'.s) && b'.s.pool.bs == b.s.pool.bs && ManifestsGood(b')
    ensures BlocksInv(net, b')
  {
    hide SysInv, StoreRight, ManifestsGood;
    LedgerShrinks(b, b');
  }

  lemma ResumeBlocksInv(net: Net, b: Blocks, k: nat, suffix: seq<Token>, q: Params, copyFails: bool)
    requires BlocksInv(net, b)
    ensures BlocksInv(net, ResumeBlocks(b, k, suffix, q, copyFails).0) && ResumeBlocks(b, k, suffix, q, copyFails).1 != Corrupt
  {
    hide SysInv, ManifestsGood, LedgerGood, TailsOld, StoreRight, Resume, RestoreBlocks, RestoreOutcome, DecrefAll;
    if k < |b.s.reqs| {
      if b.s.reqs[k].residency != OnCpu {
        ResumeInv(net, b.s, k, suffix, q);
        O.ResumeShape(net, b.s, k, suffix, q);
        var resumed := Resume(b.s, k, suffix, q.maxTokens, q.hold, q.policy, q.stops, q.ignoreEos);
        if resumed.Some? {
          var b' := b.(s := resumed.value);
          BooksElsewhere(b, b', k);
          RestKept(net, b, b');
        }
      } else if k in b.manifests {
        var m := b.manifests[k];
        RestoreBlocksInv(net, b, k, m, copyFails);
        var (b1, ok) := RestoreBlocks(b, k, m, copyFails);
        OutcomeSize(net, b, k, m, b1, ok);
        if ok {
          RestoredThenResumed(net, b, k, m, b1, suffix, q);
        } else {
          RefusedKept(net, b, k, m, b1);
        }
      }
    }
  }

  lemma OutcomeSize(net: Net, b: Blocks, k: nat, m: Manifest, b1: Blocks, ok: bool)
    requires RestoreOutcome(net, b, k, m, b1, ok)
    ensures k < |b1.s.reqs| && b1.s.pool.bs >= 1
  {
    hide Holds, RolledBack, Rest;
  }

  lemma HostRequest(b: Blocks, k: nat)
    requires ManifestsGood(b) && k < |b.s.reqs| && b.s.reqs[k].residency == OnCpu
    ensures OnBooks(b, k)
  {
  }

  lemma RefusedKept(net: Net, b: Blocks, k: nat, m: Manifest, b1: Blocks)
    requires BlocksInv(net, b) && k < |b.s.reqs| && b.s.reqs[k].residency == OnCpu && k in b.manifests && b.manifests[k] == m
    requires SysInv(net, b1.s) && RestoreOutcome(net, b, k, m, b1, false)
    ensures BlocksInv(net, b1)
  {
    hide SysInv, ManifestsGood, LedgerGood, TailsOld, StoreRight, RolledBack, Rest;
    HostRequest(b, k);
    BooksElsewhere(b, b1, k);
    RestKept(net, b, b1);
  }

  lemma RestoredThenResumed(net: Net, b: Blocks, k: nat, m: Manifest, b1: Blocks, suffix: seq<Token>, q: Params)
    requires BlocksInv(net, b) && k < |b.s.reqs| && b.s.reqs[k].residency == OnCpu && k in b.manifests && b.manifests[k] == m
    requires SysInv(net, b1.s) && RestoreOutcome(net, b, k, m, b1, true)
    ensures var resumed := Resume(b1.s, k, suffix, q.maxTokens, q.hold, q.policy, q.stops, q.ignoreEos);
      match resumed
      case Some(s2) => BlocksInv(net, b1.(s := s2))
      case None =>
        var r1 := b1.s.reqs[k];
        BlocksInv(net, b1.(s := SetReq(b1.s, k, DecrefAll(b1.s.pool, r1.table),
                                       r1.(table := [], computed := 0, scheduled := 0, residency := OnCpu, snapshot := Some(m.id))),
                           uses := b1.uses - {k}))
  {
    hide SysInv, ManifestsGood, LedgerGood, TailsOld, StoreRight, Resume, DecrefAll, Holds, Local, Frame, Rest;
    HostRequest(b, k);
    ResumeInv(net, b1.s, k, suffix, q);
    O.ResumeShape(net, b1.s, k, suffix, q);
    var resumed := Resume(b1.s, k, suffix, q.maxTokens, q.hold, q.policy, q.stops, q.ignoreEos);
    match resumed
    case Some(s2) =>
      BooksElsewhere(b, b1.(s := s2), k);
      RestKept(net, b, b1.(s := s2));
    case None =>
      var r1 := b1.s.reqs[k];
      var r' := r1.(table := [], computed := 0, scheduled := 0, residency := OnCpu, snapshot := Some(m.id));
      O.KvOf(net, b1.s);
      At(net, b1.s, k);
      DeallocateStep(net, b1.s.pool, b1.s.mem, Rest(b1.s.reqs, k), r1, r');
      O.PausedStep(net, b1.s, k, DecrefAll(b1.s.pool, r1.table), b1.s.mem, r');
      DecrefAllFrame(b1.s.pool, r1.table);
      var b2 := b1.(s := SetReq(b1.s, k, DecrefAll(b1.s.pool, r1.table), r'), uses := b1.uses - {k});
      assert b2.s.(mem := b1.s.mem) == b2.s;
      BooksElsewhere(b, b2, k);
      RestKept(net, b, b2);
  }

  // ----- the engine's own operations -----

  /** Nothing moves onto the host, and whatever is there stays as it is. */
  ghost predicate HostSame(b: Blocks, s': Sys) {
    && |s'.reqs| >= |b.s.reqs| && s'.pool.bs == b.s.pool.bs && s'.pool.epoch == b.s.pool.epoch
    && forall k :: 0 <= k < |s'.reqs| && s'.reqs[k].residency == OnCpu ==> k < |b.s.reqs| && s'.reqs[k] == b.s.reqs[k]
  }

  lemma HostSameKeeps(net: Net, b: Blocks, s': Sys)
    requires BlocksInv(net, b) && SysInv(net, s') && HostSame(b, s')
    ensures BlocksInv(net, b.(s := s'))
  {
    hide SysInv, StoreRight, LedgerGood;
    LedgerShrinks(b, b.(s := s'));
    forall k | 0 <= k < |s'.reqs| && s'.reqs[k].residency == OnCpu
      ensures OnBooks(b.(s := s'), k)
    {
      assert OnBooks(b, k);
    }
  }

  lemma AddBlocksInv(net: Net, b: Blocks, tokens: seq<Token>, q: Params)
    requires BlocksInv(net, b)
    ensures BlocksInv(net, b.(s := HostOp(b.s, Add(tokens, q)).0))
  {
    hide SysInv, StoreRight, LedgerGood, ManifestsGood, TailsOld, HostOp;
    HostOpInv(net, b.s, Add(tokens, q));
    T.AddShape(b.s, tokens, q);
    T.AddMarks(b.s, tokens, q);
    HostSameKeeps(net, b, HostOp(b.s, Add(tokens, q)).0);
  }

  lemma OnHostPaused(net: Net, b: Blocks)
    requires BlocksInv(net, b)
    ensures forall k :: 0 <= k < |b.s.reqs| && b.s.reqs[k].residency == OnCpu ==> !Live(b.s.reqs[k])
  {
    hide SysInv, StoreRight, LedgerGood;
    forall k | 0 <= k < |b.s.reqs| && b.s.reqs[k].residency == OnCpu
      ensures !Live(b.s.reqs[k])
    {
      assert OnBooks(b, k);
    }
  }

  lemma SteadyHost(b: Blocks, s': Sys)
    requires AllSteady(b.s.reqs, s'.reqs) && SameFrame(b.s.pool, s'.pool)
    requires forall k :: 0 <= k < |b.s.reqs| && b.s.reqs[k].residency == OnCpu ==> !Live(b.s.reqs[k])
    ensures HostSame(b, s')
  {
  }

  lemma ForgetShape(b: Blocks, k: nat)
    ensures var b' := Forget(b, k);
      && b' == b.(manifests := b'.manifests, store := b'.store, uses := b'.uses) && b'.manifests == b.manifests - {k}
      && (forall j :: j in b'.manifests <==> j in b.manifests && j != k)
      && (forall j :: j in b'.manifests ==> b'.manifests[j] == b.manifests[j])
      && forall key :: key in b'.store ==> key in b.store && b'.store[key] == b.store[key]
  {
    hide DropTails;
    DropTailsFewer(b, b.manifests - {k});
  }

  lemma FewerOnBooks(b: Blocks, b': Blocks, k: nat)
    requires ManifestsGood(b) && (k < |b.s.reqs| ==> b.s.reqs[k].residency != OnCpu)
    requires b' == b.(manifests := b'.manifests, store := b'.store, uses := b'.uses)
    requires forall j :: j in b'.manifests <==> j in b.manifests && j != k
    requires forall j :: j in b'.manifests ==> b'.manifests[j] == b.manifests[j]
    ensures ManifestsGood(b')
  {
    forall j | 0 <= j < |b.s.reqs| && b.s.reqs[j].residency == OnCpu
      ensures OnBooks(b', j)
    {
      assert OnBooks(b, j);
    }
  }

  /** Forgetting a request that is not on the host. */
  lemma ForgetInv(net: Net, b: Blocks, k: nat)
    requires BlocksInv(net, b) && (k < |b.s.reqs| ==> b.s.reqs[k].residency != OnCpu)
    ensures BlocksInv(net, Forget(b, k)) && Forget(b, k).s == b.s
    ensures forall j :: j in Forget(b, k).manifests ==> j in b.manifests && Forget(b, k).manifests[j] == b.manifests[j]
  {
    hide SysInv, StoreRight, LedgerGood, TailsOld, Forget, Roomy, ManifestsGood;
    var b' := Forget(b, k);
    ForgetShape(b, k);
    StoreFewer(net, b.s.pool.bs, b.manifests, b.store, b'.store);
    FewerManifests(net, b.s.pool.bs, b.manifests, b'.manifests, b'.store);
    LedgerShrinks(b, b');
    TailsFewer(b, b');
    FewerOnBooks(b, b', k);
  }

  lemma FewerManifests(net: Net, bs: nat, manifests: map<nat, Manifest>, manifests': map<nat, Manifest>, store: map<HostKey, Replica>)
    requires bs >= 1 && StoreRight(net, bs, manifests, store) && forall k :: k in manifests' ==> k in manifests && manifests'[k] == manifests[k]
    ensures StoreRight(net, bs, manifests', store)
  {
    hide Right, ChainRight;
    forall key | key in store
      ensures ReplicaRight(net, bs, manifests', key, store[key].data)
    {
      assert ReplicaRight(net, bs, manifests, key, store[key].data);
    }
  }

  /** The same books, or fewer. */
  ghost predicate NoNewer(b: Blocks, b': Blocks) {
    b'.nextId >= b.nextId && forall k :: k in b'.manifests && b'.manifests[k].id < b.nextId ==> k in b.manifests && b'.manifests[k] == b.manifests[k]
  }

  lemma {:induction false} ForgetFinishedInv(net: Net, b: Blocks, ids: seq<nat>)
    requires BlocksInv(net, b)
    ensures var b' := ForgetFinished(b, ids);
      BlocksInv(net, b') && b'.s == b.s && b'.nextId == b.nextId && b'.weights == b.weights
      && forall j :: j in b'.manifests ==> j in b.manifests && b'.manifests[j] == b.manifests[j]
    decreases |ids|
  {
    hide BlocksInv, Forget;
    if ids != [] {
      var k := ids[0];
      var b1 := if k < |b.s.reqs| && b.s.reqs[k].status == Finished then Forget(b, k) else b;
      if k < |b.s.reqs| && b.s.reqs[k].status == Finished {
        FinishedNotOnHost(net, b, k);
        ForgetInv(net, b, k);
        ForgetIds(b, k);
      }
      ForgetFinishedInv(net, b1, ids[1..]);
    }
  }

  lemma ForgetIds(b: Blocks, k: nat)
    ensures Forget(b, k).nextId == b.nextId && Forget(b, k).weights == b.weights
  {
  }

  lemma FinishedNotOnHost(net: Net, b: Blocks, k: nat)
    requires BlocksInv(net, b) && k < |b.s.reqs| && b.s.reqs[k].status == Finished
    ensures b.s.reqs[k].residency != OnCpu
  {
    hide SysInv, StoreRight, LedgerGood;
    assert b.s.reqs[k].residency == OnCpu ==> OnBooks(b, k);
  }

  lemma StepBlocksInv(net: Net, cfg: Config, propose: Proposer, b: Blocks)
    requires BlocksInv(net, b)
    ensures var (b', e) := StepBlocks(net, cfg, propose, b); BlocksInv(net, b') && e != Corrupt && NoNewer(b, b')
  {
    hide BlocksInv, SysInv, ScheduleLoop, PagedBatch, AllSteady, SameFrame, MarkAll, ForgetFinished, LedgerGood, HostSame;
    BlocksSys(net, b);
    StepRefines(net, cfg, propose, b.s);
    StepSteady(net, cfg, propose, b.s);
    StepFrame(net, cfg, propose, b.s);
    OnHostPaused(net, b);
    BlocksLedger(net, b);
    var outcome := Schedule(cfg, propose, b.s);
    if outcome.Scheduled? {
      var s' := PagedBatch(net, cfg, outcome.s, outcome.ids).0;
      SteadyHost(b, s');
      HostSameKeeps(net, b, s');
      var b1 := b.(s := s');
      BlocksLedger(net, b1);
      var normal := NormalIds(outcome.s, outcome.ids);
      MarkAllGood(b1, outcome.s.reqs, normal);
      MarkedKept(net, b1, MarkAll(b1, outcome.s.reqs, normal));
      ForgetFinishedInv(net, MarkAll(b1, outcome.s.reqs, normal), outcome.ids);
    } else if outcome.Idle? || outcome.TooLarge? {
      SteadyHost(b, outcome.s);
      HostSameKeeps(net, b, outcome.s);
    }
  }

  lemma BlocksSys(net: Net, b: Blocks)
    requires BlocksInv(net, b)
    ensures SysInv(net, b.s) && b.s.pool.bs >= 1
  {
    hide SysInv, StoreRight;
  }

  lemma BlocksLedger(net: Net, b: Blocks)
    requires BlocksInv(net, b)
    ensures LedgerGood(b)
  {
    hide SysInv, StoreRight, LedgerGood;
  }

  lemma MarkedKept(net: Net, b: Blocks, b': Blocks)
    requires BlocksInv(net, b) && b' == b.(uses := b'.uses, ledger := b'.ledger) && LedgerGood(b')
    ensures BlocksInv(net, b')
  {
    hide SysInv, StoreRight, LedgerGood;
    ManifestsKept(b, b');
  }

  lemma FinishBlocksInv(net: Net, b: Blocks, k: nat)
    requires BlocksInv(net, b)
    ensures BlocksInv(net, FinishBlocks(b, k)) && NoNewer(b, FinishBlocks(b, k)) && FinishBlocks(b, k).nextId == b.nextId
  {
    hide SysInv, StoreRight, LedgerGood, Release, Forget, TailsOld, ManifestsGood;
    if k < |b.s.reqs| && b.s.reqs[k].status != Finished {
      ReleaseInv(net, b.s, k);
      T.ReleaseShape(b.s, k);
      ReleaseFrame(b.s, k);
      ReleasedHost(b, k);
      HostSameKeeps(net, b, Release(b.s, k));
      ForgetInv(net, b.(s := Release(b.s, k)), k);
      ForgetIds(b.(s := Release(b.s, k)), k);
    }
  }

  lemma ReleaseFrame(s: Sys, k: nat)
    requires k < |s.reqs|
    ensures SameFrame(s.pool, Release(s, k).pool)
  {
    hide DecrefAll, Without;
    DecrefAllFrame(s.pool, s.reqs[k].table);
  }

  lemma ReleasedHost(b: Blocks, k: nat)
    requires k < |b.s.reqs| && b.s.reqs[k].status != Finished && SameFrame(b.s.pool, Release(b.s, k).pool)
    ensures HostSame(b, Release(b.s, k))
  {
    hide Release;
    T.ReleaseShape(b.s, k);
  }

  lemma {:induction false} FinishAllInv(net: Net, b: Blocks, ids: seq<nat>)
    requires BlocksInv(net, b)
    ensures BlocksInv(net, FinishAll(b, ids)) && NoNewer(b, FinishAll(b, ids)) && FinishAll(b, ids).nextId == b.nextId
    decreases |ids|
  {
    hide BlocksInv, FinishBlocks;
    if ids != [] {
      FinishBlocksInv(net, b, ids[0]);
      FinishAllInv(net, FinishBlocks(b, ids[0]), ids[1..]);
    }
  }

  lemma EvictHostInv(net: Net, b: Blocks, keys: set<HostKey>)
    requires BlocksInv(net, b)
    ensures BlocksInv(net, EvictHost(b, keys)) && EvictHost(b, keys).manifests == b.manifests && EvictHost(b, keys).nextId == b.nextId
  {
    hide SysInv, StoreRight, LedgerGood, TailsOld, ManifestsGood, Prune;
    var b1 := b.(store := b.store - keys);
    StoreFewer(net, b.s.pool.bs, b.manifests, b.store, b1.store);
    LedgerShrinks(b, b1);
    TailsFewer(b, b1);
    ManifestsKept(b, b1);
    PruneOnly(net, b1);
  }

  /** Counting what is stored and what is to be written apart. */
  lemma UnionSize<X>(a: set<X>, b: set<X>)
    ensures |a + b| == |a| + |b - a|
  {
    assert a + b == a + (b - a);
  }

  lemma EvictShape(b: Blocks, evict: set<HostKey>)
    ensures var b1 := EvictHost(b, evict); b1 == b.(store := b1.store, ledger := b1.ledger) && b1.store == b.store - evict
  {
    hide Gone;
  }

  lemma ReservedRoom(b: Blocks, keys: set<HostKey>, protect: set<HostKey>, evict: set<HostKey>)
    requires ReserveKeys(b, keys, protect, evict).Some?
    ensures RoomFor(b.(store := b.store - evict), keys) && forall key :: key in keys || key in protect ==> key !in evict
  {
    hide EvictHost;
    var left := (b.store - evict).Keys;
    assert left == b.store.Keys - evict;
    forall key | key in keys || key in protect
      ensures key !in evict
    {
      assert key in evict ==> key in evict * (keys + protect);
    }
    assert keys - left == keys - b.store.Keys;
    UnionSize(left, keys);
  }

  /** A reservation disturbs no session, and leaves room for every reserved key. */
  lemma ReservedInv(net: Net, b: Blocks, keys: set<HostKey>, protect: set<HostKey>, evict: set<HostKey>)
    requires BlocksInv(net, b) && ReserveKeys(b, keys, protect, evict).Some?
    ensures var b1 := ReserveKeys(b, keys, protect, evict).value;
      && BlocksInv(net, b1) && b1 == b.(store := b1.store, ledger := b1.ledger) && RoomFor(b1, keys)
      && (forall key :: key in b1.store ==> key in b.store)
      && (forall key :: key in protect && key in b.store ==> key in b1.store)
  {
    hide BlocksInv, EvictHost;
    EvictHostInv(net, b, evict);
    EvictShape(b, evict);
    ReservedRoom(b, keys, protect, evict);
  }

  /** Whenever what must stay fits the budget, some eviction makes the reservation succeed. */
  lemma ReserveFeasible(b: Blocks, keys: set<HostKey>, protect: set<HostKey>)
    requires |keys + protect| <= b.capacity
    ensures ReserveKeys(b, keys, protect, b.store.Keys - (keys + protect)).Some?
  {
    hide EvictHost;
    FitsApart(b.store.Keys, keys, protect, b.capacity);
  }

  lemma FitsApart<X>(stored: set<X>, keys: set<X>, protect: set<X>, capacity: nat)
    requires |keys + protect| <= capacity
    ensures |stored - (stored - (keys + protect))| + |keys - stored| <= capacity
  {
    var stay, missing := stored - (stored - (keys + protect)), keys - stored;
    assert stay !! missing && stay + missing <= keys + protect;
    SubsetSize(stay + missing, keys + protect);
  }

  lemma NextFresh(net: Net, b: Blocks, b': Blocks)
    requires BlocksInv(net, b) && b'.manifests == b.manifests && b'.nextId > b.nextId
    requires forall key :: key in b'.store ==> key in b.store
    ensures FreshId(b', b.nextId)
  {
    hide SysInv, StoreRight, LedgerGood, Roomy;
  }

  lemma NextIdInv(net: Net, b: Blocks, next: nat)
    requires BlocksInv(net, b) && next >= b.nextId
    ensures BlocksInv(net, b.(nextId := next))
  {
    hide SysInv, StoreRight, LedgerGood, TailsOld, Roomy;
    LedgerShrinks(b, b.(nextId := next));
    TailsFewer(b, b.(nextId := next));
    ManifestsKept(b, b.(nextId := next));
  }

  lemma SaveFrameIds(b: Blocks, k: nat, keys: set<HostKey>, b': Blocks)
    requires SaveFrame(b, k, keys, b')
    ensures b'.nextId == b.nextId && b'.weights == b.weights && b'.capacity == b.capacity && b'.s.pool.bs == b.s.pool.bs
  {
  }

  lemma SaveBlocksInv(net: Net, b: Blocks, k: nat, reached: nat, evict: set<HostKey>)
    requires BlocksInv(net, b)
    ensures var (b', result) := SaveBlocks(b, k, reached, evict);
      && BlocksInv(net, b') && NoNewer(b, b') && b'.nextId <= b.nextId + 1
      && (k < |b.s.reqs| && b.s.reqs[k].status == Paused ==> SaveOutcome(b, k, b.nextId, b', result))
  {
    hide SysInv, BlocksInv, FreshId, RoomFor, SaveMember, Savable, ReserveKeys, KeysOf, OldTail, OnBooks, SameFrame, SaveFrame;
    if k < |b.s.reqs| && b.s.reqs[k].status == Paused && !(b.s.reqs[k].table == [] && k in b.manifests) {
      var b0 := b.(nextId := b.nextId + 1);
      NextIdInv(net, b, b.nextId + 1);
      if Savable(b, k) {
        var m := ManifestOf(b, k, b.nextId);
        var reserved := ReserveKeys(b0, KeysOf(m), OldTail(b, k), evict);
        if reserved.Some? {
          ReservedInv(net, b0, KeysOf(m), OldTail(b, k), evict);
          var b1 := reserved.value;
          NextFresh(net, b, b1);
          SavableSame(b, b1, k);
          SaveMemberInv(net, b1, k, b.nextId, reached);
          var (b', result) := SaveMember(b1, k, b.nextId, reached);
          SaveFrameIds(b1, k, KeysOf(m), b');
          SavedNoNewer(b1, k, b.nextId, KeysOf(m), b', result);
        }
      }
    }
  }

  lemma SavedNoNewer(b: Blocks, k: nat, id: nat, keys: set<HostKey>, b': Blocks, result: SaveResult)
    requires SaveOutcome(b, k, id, b', result) && SaveFrame(b, k, keys, b')
    ensures forall j :: j in b'.manifests && b'.manifests[j].id < id ==> j in b.manifests && b'.manifests[j] == b.manifests[j]
  {
    hide SameFrame;
  }

  lemma SavableSame(b: Blocks, b': Blocks, k: nat)
    requires b'.s == b.s
    ensures Savable(b', k) <==> Savable(b, k)
  {
    hide BlocksNeededFor;
  }

  /** After a reset nothing is on the host, and every block ever written is settled. */
  lemma ForgetAllInv(net: Net, net': Net, b: Blocks, s': Sys, weights: nat)
    requires BlocksInv(net, b) && SysInv(net', s') && s'.pool.bs >= 1
    requires forall k :: 0 <= k < |s'.reqs| ==> s'.reqs[k].residency == NoKv
    ensures var b' := ForgetAll(b).(s := s', weights := weights);
      BlocksInv(net', b') && b'.manifests == map[] && b'.nextId == b.nextId
  {
    hide SysInv, LedgerGood, Prune;
    var b1 := b.(manifests := map[], store := map[], uses := map[]);
    BlocksLedger(net, b);
    LedgerShrinks(b, b1);
    PruneGood(b1);
    ResetLedger(Prune(b1), s', weights);
  }

  lemma ResetLedger(b: Blocks, s': Sys, weights: nat)
    requires LedgerGood(b)
    ensures LedgerGood(b.(s := s', weights := weights))
  {
  }

  lemma {:induction false} CommitBooks(m: Manifest, source: Memory, b: Blocks, i: nat, reached: nat)
    ensures var b' := CommitKeys(m, source, b, i, reached); b'.manifests == b.manifests && b'.nextId == b.nextId
    decreases reached - i
  {
    hide KeyAt;
    if i < reached && i < |source| {
      if KeyAt(m, i) in b.store {
        CommitBooks(m, source, b, i + 1, reached);
      } else {
        var h := b.nextHandle;
        CommitBooks(m, source,
                    b.(store := b.store[KeyAt(m, i) := Replica(h, source[i])], nextHandle := h + 1,
                       ledger := b.ledger.(cohorts := b.ledger.cohorts[h := false], committed := b.ledger.committed + 1)), i + 1, reached);
      }
    }
  }
}

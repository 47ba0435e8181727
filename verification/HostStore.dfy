/** Host memory for whole snapshots: room is reserved before a copy starts, and the totals are
    always the sums over what is reserved and what is committed. */
module HostStore {
  import opened BlockPool

  datatype TicketState = Open | Committed | Aborted

  /** A reservation; its place in the store's list is its identity. */
  datatype Ticket = Ticket(id: nat, bytes: nat, pinned: bool, state: TicketState)

  datatype HostSnapshot = HostSnapshot(id: nat, bytes: nat, pinned: bool)

  function OpenBytes(tickets: seq<Ticket>, pinnedOnly: bool): nat {
    if tickets == [] then 0
    else
      var t := tickets[|tickets| - 1];
      OpenBytes(tickets[..|tickets| - 1], pinnedOnly) + if t.state == Open && (pinnedOnly ==> t.pinned) then t.bytes else 0
  }

  function HeldBytes(snapshots: seq<HostSnapshot>, pinnedOnly: bool): nat {
    if snapshots == [] then 0
    else
      var x := snapshots[|snapshots| - 1];
      HeldBytes(snapshots[..|snapshots| - 1], pinnedOnly) + if pinnedOnly ==> x.pinned then x.bytes else 0
  }

  function Counted(t: Ticket, pinnedOnly: bool): nat {
    if t.state == Open && (pinnedOnly ==> t.pinned) then t.bytes else 0
  }

  /** Closing one reservation takes exactly its bytes off the total. */
  lemma {:induction false} CloseTicket(tickets: seq<Ticket>, i: nat, state: TicketState, pinnedOnly: bool)
    requires i < |tickets| && state != Open
    ensures OpenBytes(tickets[i := tickets[i].(state := state)], pinnedOnly) == OpenBytes(tickets, pinnedOnly) - Counted(tickets[i], pinnedOnly)
  {
    var n := |tickets| - 1;
    var tickets' := tickets[i := tickets[i].(state := state)];
    if i == n {
      assert tickets'[..n] == tickets[..n];
    } else {
      CloseTicket(tickets[..n], i, state, pinnedOnly);
      assert tickets'[..n] == tickets[..n][i := tickets[i].(state := state)];
    }
  }

  lemma OpenTicket(tickets: seq<Ticket>, t: Ticket, pinnedOnly: bool)
    ensures OpenBytes(tickets + [t], pinnedOnly) == OpenBytes(tickets, pinnedOnly) + Counted(t, pinnedOnly)
  {
    assert (tickets + [t])[..|tickets|] == tickets;
  }

  lemma HeldAppend(snapshots: seq<HostSnapshot>, x: HostSnapshot, pinnedOnly: bool)
    ensures HeldBytes(snapshots + [x], pinnedOnly) == HeldBytes(snapshots, pinnedOnly) + if pinnedOnly ==> x.pinned then x.bytes else 0
  {
    assert (snapshots + [x])[..|snapshots|] == snapshots;
  }

  lemma {:induction false} HeldRemove(snapshots: seq<HostSnapshot>, i: nat, pinnedOnly: bool)
    requires i < |snapshots|
    ensures HeldBytes(RemoveAt(snapshots, i), pinnedOnly) == HeldBytes(snapshots, pinnedOnly) - if pinnedOnly ==> snapshots[i].pinned then snapshots[i].bytes else 0
  {
    var n := |snapshots| - 1;
    if i == n {
      assert RemoveAt(snapshots, i) == snapshots[..n];
    } else {
      HeldRemove(snapshots[..n], i, pinnedOnly);
      var rest := RemoveAt(snapshots, i);
      assert rest[..n - 1] == RemoveAt(snapshots[..n], i) && rest[n - 1] == snapshots[n];
    }
  }

  ghost predicate OneId(snapshots: seq<HostSnapshot>) {
    forall i, j :: 0 <= i < j < |snapshots| ==> snapshots[i].id != snapshots[j].id
  }

  ghost predicate Stores(snapshots: seq<HostSnapshot>, id: nat) {
    exists x :: x in snapshots && x.id == id
  }

  lemma RemoveOne(snapshots: seq<HostSnapshot>, i: nat)
    requires i < |snapshots| && OneId(snapshots)
    ensures OneId(RemoveAt(snapshots, i))
    ensures forall x :: x in RemoveAt(snapshots, i) <==> x in snapshots && x.id != snapshots[i].id
  {
    var rest := RemoveAt(snapshots, i);
    assert forall j :: 0 <= j < i ==> rest[j] == snapshots[j];
    assert forall j :: i <= j < |rest| ==> rest[j] == snapshots[j + 1];
    forall x | x in snapshots && x.id != snapshots[i].id
      ensures x in rest
    {
      var j :| 0 <= j < |snapshots| && snapshots[j] == x;
      assert rest[if j < i then j else j - 1] == x;
    }
  }

  lemma AppendOne(snapshots: seq<HostSnapshot>, x: HostSnapshot)
    requires OneId(snapshots) && !Stores(snapshots, x.id)
    ensures OneId(snapshots + [x])
  {
    assert forall k :: 0 <= k < |snapshots| ==> snapshots[k] in snapshots;
  }

  /** The listed tickets are open, each under its own id. */
  ghost predicate ListedOpen(tickets: seq<Ticket>, listed: map<nat, nat>) {
    forall id :: id in listed ==> listed[id] < |tickets| && tickets[listed[id]].id == id && tickets[listed[id]].state == Open
  }

  class CpuKVStore {
    const maxBytes: nat
    var tickets: seq<Ticket>
    var listed: map<nat, nat>
    var snapshots: seq<HostSnapshot>
    var reserved: nat
    var committed: nat
    var reservedPinned: nat
    var pinned: nat

    ghost predicate Valid()
      reads this
    {
      && reserved == OpenBytes(tickets, false) && reservedPinned == OpenBytes(tickets, true)
      && committed == HeldBytes(snapshots, false) && pinned == HeldBytes(snapshots, true)
      && reserved + committed <= maxBytes
      && OneId(snapshots) && ListedOpen(tickets, listed)
    }

    /** The reservations ever made, and which of them the store can find by id. */
    function State(): Desk
      reads this
    {
      Desk(tickets, listed)
    }

    constructor (maxBytes: nat)
      ensures Valid() && this.maxBytes == maxBytes && tickets == [] && snapshots == [] && State() == History([])
    {
      this.maxBytes := maxBytes;
      tickets, listed, snapshots, reserved, committed, reservedPinned, pinned := [], map[], [], 0, 0, 0, 0;
    }

    /** Room for a whole snapshot, or nothing at all. */
    method Reserve(id: nat, bytes: nat, pin: bool) returns (ticket: Option<nat>)
      requires Valid()
      modifies this`tickets, this`listed, this`reserved, this`reservedPinned
      ensures Valid()
      ensures ticket.Some? <==> old(reserved + committed) + bytes <= maxBytes
      ensures ticket.Some? ==> ticket.value == |old(tickets)| && tickets == old(tickets) + [Ticket(id, bytes, pin, Open)] && listed == old(listed)[id := ticket.value]
      ensures State() == if ticket.Some? then After(old(State()), Made(id, bytes, pin)) else old(State())
      ensures ticket.Some? ==> reserved == old(reserved) + bytes
      ensures ticket.None? ==> tickets == old(tickets) && listed == old(listed) && reserved == old(reserved)
    {
      hide OpenBytes, HeldBytes, OneId, Stores;
      if committed + reserved + bytes > maxBytes {
        return None;
      }
      var t := Ticket(id, bytes, pin, Open);
      OpenTicket(tickets, t, false);
      OpenTicket(tickets, t, true);
      ticket := Some(|tickets|);
      tickets := tickets + [t];
      reserved := reserved + bytes;
      if pin {
        reservedPinned := reservedPinned + bytes;
      }
      listed := listed[id := |tickets| - 1];
    }

    /** The bytes move from reserved to committed; twice, or under an id already committed, is
        refused. */
    method Commit(i: nat) returns (ok: bool)
      requires Valid() && i < |tickets|
      modifies this
      ensures Valid()
      ensures ok <==> old(tickets)[i].state == Open && !Stores(old(snapshots), old(tickets)[i].id)
      ensures reserved + committed == old(reserved + committed)
      ensures ok ==>
        var t := old(tickets)[i];
        && tickets == old(tickets)[i := t.(state := Committed)] && snapshots == old(snapshots) + [HostSnapshot(t.id, t.bytes, t.pinned)]
        && committed == old(committed) + t.bytes
      ensures !ok ==> tickets == old(tickets) && snapshots == old(snapshots)
      ensures State() == if ok then After(old(State()), Closed(i, Committed)) else old(State())
    {
      hide OpenBytes, HeldBytes, Stores;
      var t := tickets[i];
      if t.state != Open {
        return false;
      }
      var j := FindId(t.id);
      if j < |snapshots| {
        return false;
      }
      CloseTicket(tickets, i, Committed, false);
      CloseTicket(tickets, i, Committed, true);
      var x := HostSnapshot(t.id, t.bytes, t.pinned);
      HeldAppend(snapshots, x, false);
      HeldAppend(snapshots, x, true);
      AppendOne(snapshots, x);
      reserved, committed := reserved - t.bytes, committed + t.bytes;
      if t.pinned {
        reservedPinned, pinned := reservedPinned - t.bytes, pinned + t.bytes;
      }
      snapshots := snapshots + [x];
      tickets := tickets[i := t.(state := Committed)];
      listed := listed - {t.id};
      ok := true;
    }

    /** Gives the room back. */
    method Abort(i: nat) returns (ok: bool)
      requires Valid() && i < |tickets|
      modifies this`tickets, this`listed, this`reserved, this`reservedPinned
      ensures Valid()
      ensures ok <==> old(tickets)[i].state == Open
      ensures ok ==> tickets == old(tickets)[i := old(tickets)[i].(state := Aborted)] && reserved == old(reserved) - old(tickets)[i].bytes
      ensures ok ==> listed == old(listed) - {old(tickets)[i].id}
      ensures !ok ==> tickets == old(tickets) && listed == old(listed) && reserved == old(reserved)
      ensures State() == if ok then After(old(State()), Closed(i, Aborted)) else old(State())
    {
      hide OpenBytes, HeldBytes, OneId, Stores;
      var t := tickets[i];
      if t.state != Open {
        return false;
      }
      CloseTicket(tickets, i, Aborted, false);
      CloseTicket(tickets, i, Aborted, true);
      reserved := reserved - t.bytes;
      if t.pinned {
        reservedPinned := reservedPinned - t.bytes;
      }
      tickets := tickets[i := t.(state := Aborted)];
      listed := listed - {t.id};
      ok := true;
    }

    method FindId(id: nat) returns (i: nat)
      ensures i <= |snapshots| && (i < |snapshots| ==> snapshots[i].id == id) && (i < |snapshots| <==> Stores(snapshots, id))
    {
      i := 0;
      while i < |snapshots| && snapshots[i].id != id
        invariant i <= |snapshots| && forall j :: 0 <= j < i ==> snapshots[j].id != id
      {
        i := i + 1;
      }
    }

    method Delete(id: nat) returns (removed: bool)
      requires Valid()
      modifies this`snapshots, this`committed, this`pinned
      ensures Valid() && (removed <==> Stores(old(snapshots), id))
      ensures forall x :: x in snapshots <==> x in old(snapshots) && x.id != id
      ensures if removed then exists i: nat :: i < |old(snapshots)| && old(snapshots)[i].id == id && snapshots == RemoveAt(old(snapshots), i) else snapshots == old(snapshots)
    {
      hide OpenBytes, HeldBytes;
      var i := FindId(id);
      if i == |snapshots| {
        return false;
      }
      HeldRemove(snapshots, i, false);
      HeldRemove(snapshots, i, true);
      RemoveOne(snapshots, i);
      committed := committed - snapshots[i].bytes;
      if snapshots[i].pinned {
        pinned := pinned - snapshots[i].bytes;
      }
      snapshots := RemoveAt(snapshots, i);
      removed := true;
    }

    /** Drops the least recently touched snapshot that is not protected. */
    method EvictOldest(protected: set<nat>) returns (id: Option<nat>)
      requires Valid()
      modifies this`snapshots, this`committed, this`pinned
      ensures Valid()
      ensures id.None? <==> forall x :: x in old(snapshots) ==> x.id in protected
      ensures id.None? ==> snapshots == old(snapshots) && committed == old(committed)
      ensures id.Some? ==> id.value !in protected && Stores(old(snapshots), id.value) && forall x :: x in snapshots <==> x in old(snapshots) && x.id != id.value
      ensures id.Some? ==> OldestOf(old(snapshots), protected, id.value)
      ensures id.Some? && protected == {} ==> old(snapshots) != [] && id.value == old(snapshots)[0].id && snapshots == old(snapshots)[1..]
    {
      hide OpenBytes, HeldBytes;
      var i := 0;
      while i < |snapshots| && snapshots[i].id in protected
        invariant i <= |snapshots| && forall j :: 0 <= j < i ==> snapshots[j].id in protected
      {
        i := i + 1;
      }
      if i == |snapshots| {
        return None;
      }
      assert snapshots[i] in snapshots;
      id := Some(snapshots[i].id);
      ghost var before := snapshots;
      var _ := Delete(snapshots[i].id);
      ghost var j: nat :| j < |before| && before[j].id == id.value && snapshots == RemoveAt(before, j);
      assert j == i;
    }

    /** A touched snapshot becomes the youngest. */
    method Get(id: nat) returns (found: bool)
      requires Valid()
      modifies this`snapshots
      ensures Valid() && (found <==> Stores(old(snapshots), id))
      ensures found ==> snapshots != [] && snapshots[|snapshots| - 1].id == id
      ensures forall x :: x in snapshots <==> x in old(snapshots)
    {
      var i := FindId(id);
      if i == |snapshots| {
        return false;
      }
      var x := snapshots[i];
      HeldRemove(snapshots, i, false);
      HeldRemove(snapshots, i, true);
      RemoveOne(snapshots, i);
      var rest := RemoveAt(snapshots, i);
      HeldAppend(rest, x, false);
      HeldAppend(rest, x, true);
      assert forall k :: 0 <= k < |rest| ==> rest[k] in rest;
      snapshots := rest + [x];
      found := true;
    }

    /** Aborts every reservation that is found by its id, and drops every snapshot. */
    method InvalidateAll()
      requires Valid()
      modifies this
      ensures Valid() && snapshots == [] && committed == 0 && pinned == 0
      ensures State() == After(old(State()), Swept) && reserved == OpenBytes(tickets, false)
    {
      hide OpenBytes, HeldBytes;
      var i := 0;
      while i < |tickets|
        invariant 0 <= i <= |tickets| == |old(tickets)| && Valid() && snapshots == old(snapshots) && committed == old(committed)
        invariant forall j :: 0 <= j < |tickets| ==> tickets[j] == if j < i then Sweep(old(tickets), old(listed))[j] else old(tickets)[j]
        invariant forall j: nat :: i <= j < |tickets| ==> (IsListed(tickets, listed, j) <==> IsListed(old(tickets), old(listed), j))
        invariant forall id :: id in listed ==> listed[id] >= i
      {
        if tickets[i].id in listed && listed[tickets[i].id] == i {
          var _ := Abort(i);
        }
        i := i + 1;
      }
      HeldNothing();
      assert listed == map[];
      snapshots, committed, pinned := [], 0, 0;
    }
  }

  lemma HeldNothing()
    ensures HeldBytes([], false) == 0 && HeldBytes([], true) == 0
  {
  }

  ghost predicate IsListed(tickets: seq<Ticket>, listed: map<nat, nat>, i: nat) {
    i < |tickets| && tickets[i].id in listed && listed[tickets[i].id] == i
  }

  /** What the sweep by id leaves of the reservations. */
  ghost function Sweep(tickets: seq<Ticket>, listed: map<nat, nat>): (swept: seq<Ticket>)
    ensures |swept| == |tickets|
  {
    seq(|tickets|, i requires 0 <= i < |tickets| => if IsListed(tickets, listed, i) then tickets[i].(state := Aborted) else tickets[i])
  }

  // ----- any history of calls -----

  /** The store's reservations, and which of them is found under each id. */
  datatype Desk = Desk(tickets: seq<Ticket>, listed: map<nat, nat>)

  /** A call that was granted. */
  datatype Call = Made(id: nat, bytes: nat, pinned: bool) | Closed(i: nat, state: TicketState) | Swept

  predicate Closes(d: Desk, c: Call, i: nat) {
    c.Closed? && c.i == i && c.state != Open && i < |d.tickets| && d.tickets[i].state == Open
  }

  ghost function After(d: Desk, c: Call): Desk {
    match c
    case Made(id, bytes, pinned) => Desk(d.tickets + [Ticket(id, bytes, pinned, Open)], d.listed[id := |d.tickets|])
    case Closed(i, state) =>
      if !Closes(d, c, i) then d else Desk(d.tickets[i := d.tickets[i].(state := state)], d.listed - {d.tickets[i].id})
    case Swept => Desk(Sweep(d.tickets, d.listed), map[])
  }

  /** From an empty store. */
  ghost function History(calls: seq<Call>): Desk {
    if calls == [] then Desk([], map[]) else After(History(calls[..|calls| - 1]), calls[|calls| - 1])
  }

  /** The call makes or closes another reservation under the id of reservation `i`. */
  predicate Disturbs(d: Desk, c: Call, i: nat) {
    && i < |d.tickets|
    && match c
       case Made(id, _, _) => id == d.tickets[i].id
       case Closed(j, _) => j != i && Closes(d, c, j) && d.tickets[j].id == d.tickets[i].id
       case Swept => false
  }

  ghost predicate Disturbed(calls: seq<Call>, i: nat) {
    exists n :: 0 <= n < |calls| && Disturbs(History(calls[..n]), calls[n], i)
  }

  lemma DisturbedMore(calls: seq<Call>, i: nat)
    requires calls != []
    ensures var n := |calls| - 1; Disturbed(calls, i) <==> Disturbed(calls[..n], i) || Disturbs(History(calls[..n]), calls[n], i)
  {
    hide History, Disturbs;
    var n := |calls| - 1;
    assert forall m :: 0 <= m < n ==> calls[..n][..m] == calls[..m] && calls[..n][m] == calls[m];
    if Disturbed(calls[..n], i) {
      var m :| 0 <= m < n && Disturbs(History(calls[..n][..m]), calls[..n][m], i);
      assert Disturbs(History(calls[..m]), calls[m], i);
    }
    if Disturbed(calls, i) {
      var m :| 0 <= m < |calls| && Disturbs(History(calls[..m]), calls[m], i);
      assert m < n ==> Disturbs(History(calls[..n][..m]), calls[..n][m], i);
    }
  }

  ghost predicate IsOpen(d: Desk, i: nat) {
    i < |d.tickets| && d.tickets[i].state == Open
  }

  /** What one call does to an open reservation that stays open. */
  lemma ListedStep(d: Desk, c: Call, i: nat)
    requires IsOpen(After(d, c), i) && ListedOpen(d.tickets, d.listed)
    ensures ListedOpen(After(d, c).tickets, After(d, c).listed)
    ensures i < |d.tickets| ==> IsOpen(d, i) && d.tickets[i] == After(d, c).tickets[i]
    ensures i < |d.tickets| ==>
      (IsListed(After(d, c).tickets, After(d, c).listed, i) <==> IsListed(d.tickets, d.listed, i) && !Disturbs(d, c, i))
    ensures i >= |d.tickets| ==> IsListed(After(d, c).tickets, After(d, c).listed, i) && !Disturbs(d, c, i)
  {
  }

  lemma KeptOpen(d: Desk, c: Call)
    requires ListedOpen(d.tickets, d.listed)
    ensures ListedOpen(After(d, c).tickets, After(d, c).listed) && |After(d, c).tickets| >= |d.tickets|
  {
  }

  lemma {:induction false} HistoryListed(calls: seq<Call>)
    ensures var d := History(calls); ListedOpen(d.tickets, d.listed)
    ensures forall i: nat :: i >= |History(calls).tickets| ==> !Disturbed(calls, i)
  {
    hide After, Disturbs, ListedOpen;
    if calls == [] {
      EmptyListed();
    } else {
      var n := |calls| - 1;
      HistoryListed(calls[..n]);
      KeptOpen(History(calls[..n]), calls[n]);
      forall i: nat | i >= |History(calls).tickets|
        ensures !Disturbed(calls, i)
      {
        DisturbedMore(calls, i);
        NotYet(History(calls[..n]), calls[n], i);
      }
    }
  }

  lemma EmptyListed()
    ensures ListedOpen([], map[])
  {
  }

  lemma NotYet(d: Desk, c: Call, i: nat)
    requires i >= |d.tickets|
    ensures !Disturbs(d, c, i)
  {
  }

  /** An open reservation is found by its id exactly as long as no other one under that id has
      been made, committed or aborted since. */
  lemma {:induction false} ListedExact(calls: seq<Call>, i: nat)
    requires IsOpen(History(calls), i)
    ensures var d := History(calls); IsListed(d.tickets, d.listed, i) <==> !Disturbed(calls, i)
  {
    hide After, Disturbs, Disturbed, ListedOpen, IsListed;
    if calls != [] {
      var n := |calls| - 1;
      var d := History(calls[..n]);
      HistoryListed(calls[..n]);
      DisturbedMore(calls, i);
      ListedStep(d, calls[n], i);
      if i < |d.tickets| {
        ListedExact(calls[..n], i);
      }
    }
  }

  lemma {:induction false} NoOpenBytes(tickets: seq<Ticket>)
    ensures OpenBytes(tickets, false) == 0 <==> forall i :: 0 <= i < |tickets| && tickets[i].state == Open ==> tickets[i].bytes == 0
  {
    if tickets != [] {
      var init := tickets[..|tickets| - 1];
      NoOpenBytes(init);
      assert forall i :: 0 <= i < |init| ==> init[i] == tickets[i];
    }
  }

  /** After any history of calls, the sweep gives all reserved room back exactly when no other
      reservation under the id of an open one that asked for room has been made, committed or
      aborted since that one was made. */
  lemma SweepExact(calls: seq<Call>)
    ensures OpenBytes(After(History(calls), Swept).tickets, false) == 0 <==>
      forall i: nat :: IsOpen(History(calls), i) && History(calls).tickets[i].bytes > 0 ==> !Disturbed(calls, i)
  {
    hide OpenBytes, IsListed, Disturbed, History;
    var d := History(calls);
    var swept := Sweep(d.tickets, d.listed);
    NoOpenBytes(swept);
    forall i: nat | IsOpen(d, i)
      ensures swept[i].state == Open <==> Disturbed(calls, i)
      ensures swept[i].bytes == d.tickets[i].bytes
    {
      ListedExact(calls, i);
    }
    assert forall i: nat :: i < |swept| && swept[i].state == Open ==> IsOpen(d, i);
  }

  /** No id is used again while a reservation under it is open. */
  ghost predicate OneAtATime(calls: seq<Call>) {
    forall n :: 0 <= n < |calls| && calls[n].Made? ==> !Occupied(History(calls[..n]), calls[n].id)
  }

  ghost predicate Occupied(d: Desk, id: nat) {
    exists i: nat :: IsOpen(d, i) && d.tickets[i].id == id
  }

  ghost predicate AllListed(d: Desk) {
    forall i: nat :: IsOpen(d, i) ==> IsListed(d.tickets, d.listed, i)
  }

  lemma OneAtATimeStep(d: Desk, c: Call)
    requires AllListed(d) && (c.Made? ==> !Occupied(d, c.id))
    ensures AllListed(After(d, c))
  {
    var d' := After(d, c);
    forall i: nat | IsOpen(d', i)
      ensures IsListed(d'.tickets, d'.listed, i)
    {
      if i < |d.tickets| {
        assert IsOpen(d, i) && IsListed(d.tickets, d.listed, i);
        if c.Closed? && Closes(d, c, c.i) {
          assert IsOpen(d, c.i) && IsListed(d.tickets, d.listed, c.i);
        }
      }
    }
  }

  /** Using ids that way, nothing is ever lost to a sweep. */
  lemma {:induction false} OneAtATimeSweeps(calls: seq<Call>)
    requires OneAtATime(calls)
    ensures AllListed(History(calls)) && OpenBytes(After(History(calls), Swept).tickets, false) == 0
  {
    hide OpenBytes, After, Occupied, AllListed;
    if calls == [] {
      NothingListed();
    } else {
      var n := |calls| - 1;
      assert forall m :: 0 <= m < n ==> calls[..n][..m] == calls[..m] && calls[..n][m] == calls[m];
      OneAtATimeSweeps(calls[..n]);
      OneAtATimeStep(History(calls[..n]), calls[n]);
    }
    ListedAreSwept(History(calls));
  }

  lemma NothingListed()
    ensures AllListed(Desk([], map[]))
  {
  }

  lemma ListedAreSwept(d: Desk)
    requires AllListed(d)
    ensures OpenBytes(After(d, Swept).tickets, false) == 0
  {
    hide OpenBytes;
    NoOpenBytes(Sweep(d.tickets, d.listed));
    assert forall i: nat :: i < |d.tickets| ==> IsOpen(d, i) || d.tickets[i].state != Open;
  }

  /** Using an occupied id once more loses the room of the reservation that occupies it. */
  lemma ReuseLosesRoom(d: Desk, i: nat, c: Call)
    requires IsOpen(d, i) && d.tickets[i].bytes > 0 && c.Made? && c.id == d.tickets[i].id
    ensures OpenBytes(After(After(d, c), Swept).tickets, false) > 0
  {
    hide OpenBytes;
    var d1 := After(d, c);
    NoOpenBytes(Sweep(d1.tickets, d1.listed));
    assert Sweep(d1.tickets, d1.listed)[i] == d.tickets[i];
  }

  /** Two reservations under one id, then the sweep: four bytes stay reserved with nobody to
      give them back. */
  method ShadowedReservation() returns (store: CpuKVStore)
    ensures store.Valid() && store.snapshots == [] && store.reserved == 4 && store.maxBytes == 10
  {
    hide OpenBytes, HeldBytes;
    store := new CpuKVStore(10);
    NothingOpen();
    var first := store.Reserve(1, 4, false);
    var second := store.Reserve(1, 5, false);
    store.InvalidateAll();
    assert store.tickets == [Ticket(1, 4, false, Open), Ticket(1, 5, false, Aborted)];
    LeftOpen();
  }

  /** And the same for the younger of the two, once the older is given back. */
  method StrandedReservation() returns (store: CpuKVStore)
    ensures store.Valid() && store.snapshots == [] && store.reserved == 5 && store.maxBytes == 10
  {
    hide OpenBytes, HeldBytes;
    store := new CpuKVStore(10);
    NothingOpen();
    var first := store.Reserve(1, 4, false);
    var second := store.Reserve(1, 5, false);
    var _ := store.Abort(first.value);
    assert store.tickets == [Ticket(1, 4, false, Aborted), Ticket(1, 5, false, Open)] && store.listed == map[];
    store.InvalidateAll();
    assert store.tickets == [Ticket(1, 4, false, Aborted), Ticket(1, 5, false, Open)];
    StrandedOpen();
  }

  lemma StrandedOpen()
    ensures OpenBytes([Ticket(1, 4, false, Aborted), Ticket(1, 5, false, Open)], false) == 5
  {
    var one := [Ticket(1, 4, false, Aborted)];
    assert one[..0] == [] && OpenBytes(one, false) == 0;
    assert [Ticket(1, 4, false, Aborted), Ticket(1, 5, false, Open)][..1] == one;
  }

  lemma NothingOpen()
    ensures OpenBytes([], false) == 0 && HeldBytes([], false) == 0
  {
  }

  lemma LeftOpen()
    ensures OpenBytes([Ticket(1, 4, false, Open), Ticket(1, 5, false, Aborted)], false) == 4
  {
    var one := [Ticket(1, 4, false, Open)];
    assert one[..0] == [] && OpenBytes(one, false) == 4;
    assert [Ticket(1, 4, false, Open), Ticket(1, 5, false, Aborted)][..1] == one;
  }

  ghost predicate OldestOf(snapshots: seq<HostSnapshot>, protected: set<nat>, id: nat) {
    exists i :: 0 <= i < |snapshots| && snapshots[i].id == id && forall j :: 0 <= j < i ==> snapshots[j].id in protected
  }

  lemma {:induction false} NoneOpen(tickets: seq<Ticket>, pinnedOnly: bool)
    requires forall i :: 0 <= i < |tickets| ==> tickets[i].state != Open
    ensures OpenBytes(tickets, pinnedOnly) == 0
  {
    if tickets != [] {
      NoneOpen(tickets[..|tickets| - 1], pinnedOnly);
    }
  }
}

/** Recognising the paused session that a conversation continues: claims, rollback, parking and
    eviction over the sequence each session is sitting on. */
module Sessions {
  import opened Kv
  import opened BlockPool

  datatype Session = Session(id: nat, tokens: seq<Token>, blocks: nat, stamp: nat)

  datatype Claim = Claim(id: nat, shared: nat, held: nat, suffix: seq<Token>)

  // ----- what a claim is -----

  /** The prompt continues what the session holds, by at least one token. */
  predicate Extends(s: Session, ids: seq<Token>) {
    |s.tokens| < |ids| && s.tokens == ids[..|s.tokens|]
  }

  predicate Claimable(s: Session, claims: set<nat>, ids: seq<Token>) {
    s.id !in claims && Extends(s, ids)
  }

  function ClaimOf(s: Session, ids: seq<Token>): Claim
    requires |s.tokens| <= |ids|
  {
    Claim(s.id, |s.tokens|, |s.tokens|, ids[|s.tokens|..])
  }

  /** The longest claimable session among the first `n`, and of those the first. */
  ghost predicate BestAmong(held: seq<Session>, claims: set<nat>, ids: seq<Token>, i: nat, n: nat) {
    && i < n <= |held| && Claimable(held[i], claims, ids)
    && (forall j :: 0 <= j < n && Claimable(held[j], claims, ids) ==> |held[j].tokens| <= |held[i].tokens|)
    && (forall j :: 0 <= j < i && Claimable(held[j], claims, ids) ==> |held[j].tokens| < |held[i].tokens|)
  }

  /** What a claim and its session put together is the prompt, token for token. */
  lemma ClaimIsExact(s: Session, claims: set<nat>, ids: seq<Token>)
    requires Claimable(s, claims, ids)
    ensures var c := ClaimOf(s, ids); s.tokens + c.suffix == ids && c.suffix != [] && c.shared == c.held
  {
  }

  method CommonPrefix(a: seq<Token>, b: seq<Token>) returns (n: nat)
    ensures n <= |a| && n <= |b| && a[..n] == b[..n]
    ensures n < |a| && n < |b| ==> a[n] != b[n]
  {
    n := 0;
    while n < |a| && n < |b| && a[n] == b[n]
      invariant n <= |a| && n <= |b| && a[..n] == b[..n]
    {
      n := n + 1;
    }
  }

  lemma PrefixDecides(s: Session, ids: seq<Token>, shared: nat)
    requires shared <= |s.tokens| && shared <= |ids| && s.tokens[..shared] == ids[..shared]
    requires shared < |s.tokens| && shared < |ids| ==> s.tokens[shared] != ids[shared]
    ensures Extends(s, ids) <==> shared < |ids| && shared == |s.tokens|
  {
    if |s.tokens| <= |ids| && shared < |s.tokens| {
      assert ids[..|s.tokens|][shared] == ids[shared];
    }
  }

  // ----- eviction -----

  predicate Evictable(s: Session, claims: set<nat>, needBlocks: bool) {
    s.id !in claims && (!needBlocks || s.blocks > 0)
  }

  /** The evictable session parked least recently. */
  ghost predicate IsOldest(held: seq<Session>, claims: set<nat>, needBlocks: bool, i: nat) {
    && i < |held| && Evictable(held[i], claims, needBlocks)
    && forall j :: 0 <= j < |held| && Evictable(held[j], claims, needBlocks) ==> held[i].stamp <= held[j].stamp
  }

  ghost predicate NoneEvictable(held: seq<Session>, claims: set<nat>, needBlocks: bool) {
    forall j :: 0 <= j < |held| ==> !Evictable(held[j], claims, needBlocks)
  }

  /** The distinct physical blocks that the sessions' requests hold now. */
  function HeldBlocks(held: seq<Session>, tables: map<nat, seq<nat>>): set<nat> {
    set s, b | s in held && s.id in tables && b in tables[s.id] :: b
  }

  ghost predicate Known(held: seq<Session>, clock: nat, claims: set<nat>) {
    && (forall i, j :: 0 <= i < j < |held| ==> held[i].id != held[j].id)
    && (forall i, j :: 0 <= i < j < |held| ==> held[i].stamp != held[j].stamp)
    && (forall s :: s in held ==> s.stamp <= clock)
    && (forall id :: id in claims ==> HasId(held, id))
  }

  ghost predicate HasId(held: seq<Session>, id: nat) {
    exists s :: s in held && s.id == id
  }

  lemma RemoveAtMembers(held: seq<Session>, i: nat, clock: nat, claims: set<nat>)
    requires i < |held| && Known(held, clock, claims)
    ensures forall s :: s in RemoveAt(held, i) <==> s in held && s.id != held[i].id
    ensures held[i].id !in claims ==> Known(RemoveAt(held, i), clock, claims)
    ensures Known(RemoveAt(held, i), clock, claims - {held[i].id})
  {
    RemoveAtShape(held, i, clock, claims);
    var rest := RemoveAt(held, i);
    forall id | id in claims && id != held[i].id
      ensures HasId(rest, id)
    {
      assert HasId(held, id);
      var s :| s in held && s.id == id;
      assert s in rest;
    }
  }

  lemma RemoveAtShape(held: seq<Session>, i: nat, clock: nat, claims: set<nat>)
    requires i < |held| && Known(held, clock, claims)
    ensures forall s :: s in RemoveAt(held, i) <==> s in held && s.id != held[i].id
    ensures forall j, k :: 0 <= j < k < |RemoveAt(held, i)| ==> RemoveAt(held, i)[j].id != RemoveAt(held, i)[k].id
    ensures forall j, k :: 0 <= j < k < |RemoveAt(held, i)| ==> RemoveAt(held, i)[j].stamp != RemoveAt(held, i)[k].stamp
  {
    hide HasId;
    var rest := RemoveAt(held, i);
    assert forall j :: 0 <= j < i ==> rest[j] == held[j];
    assert forall j :: i <= j < |rest| ==> rest[j] == held[j + 1];
    forall s | s in held && s.id != held[i].id
      ensures s in rest
    {
      var j :| 0 <= j < |held| && held[j] == s;
      assert rest[if j < i then j else j - 1] == s;
    }
  }

  /** What eviction to fit leaves behind, and the ids it retired, oldest first. */
  ghost predicate Evicted(held: seq<Session>, claims: set<nat>, held': seq<Session>, gone: seq<nat>) {
    && (forall s :: s in held' ==> s in held)
    && (forall s :: s in held && s !in held' ==> s.id in gone && s.id !in claims)
    && (forall id :: id in gone ==> HasId(held, id) && !HasId(held', id) && id !in claims)
    && (forall s, t :: s in held && s.id in gone && t in held' && t.id !in claims ==> s.stamp < t.stamp)
  }

  ghost predicate Fits(held: seq<Session>, tables: map<nat, seq<nat>>, maxSessions: nat, maxBlocks: nat) {
    held == [] || (|held| <= maxSessions && |HeldBlocks(held, tables)| <= maxBlocks)
  }

  /** Putting the last retired session back would break a bound again. */
  ghost predicate Needed(held: seq<Session>, held': seq<Session>, last: nat, tables: map<nat, seq<nat>>, maxSessions: nat, maxBlocks: nat) {
    exists s :: s in held && s.id == last && !Fits(held' + [s], tables, maxSessions, maxBlocks)
  }

  lemma LastNeeded(held: seq<Session>, claims: set<nat>, mid: seq<Session>, gone: seq<nat>, i: nat, tables: map<nat, seq<nat>>,
                   maxSessions: nat, maxBlocks: nat)
    requires Evicted(held, claims, mid, gone) && i < |mid| && !Fits(mid, tables, maxSessions, maxBlocks)
    ensures Needed(held, RemoveAt(mid, i), mid[i].id, tables, maxSessions, maxBlocks)
  {
    hide HasId;
    var back := RemoveAt(mid, i) + [mid[i]];
    assert mid[i] in mid && mid[i] in held;
    forall s
      ensures s in back <==> s in mid
    {
      assert mid == mid[..i] + [mid[i]] + mid[i + 1..];
    }
    assert HeldBlocks(back, tables) == HeldBlocks(mid, tables);
  }

  lemma EvictedNone(held: seq<Session>, claims: set<nat>)
    ensures Evicted(held, claims, held, [])
  {
  }

  lemma EvictedOne(held: seq<Session>, clock: nat, claims: set<nat>, mid: seq<Session>, gone: seq<nat>, i: nat)
    requires Known(held, clock, claims) && Known(mid, clock, claims) && Evicted(held, claims, mid, gone) && IsOldest(mid, claims, false, i)
    ensures Evicted(held, claims, RemoveAt(mid, i), gone + [mid[i].id])
  {
    RemoveAtMembers(mid, i, clock, claims);
    var held', last := RemoveAt(mid, i), mid[i];
    assert last in mid && last in held;
    assert forall id :: id in gone + [last.id] <==> id in gone || id == last.id;
    assert HasId(held, last.id);
    forall s | s in held && s !in held'
      ensures s.id in gone + [last.id] && s.id !in claims
    {
      if s in mid {
        assert s.id == last.id;
      }
    }
    forall s, t | s in held && s.id in gone + [last.id] && t in held' && t.id !in claims
      ensures s.stamp < t.stamp
    {
      assert t in mid;
      var j :| 0 <= j < |mid| && mid[j] == t;
      if s.id == last.id {
        SameSession(held, clock, claims, s, last);
        assert last.stamp <= t.stamp && last.stamp != t.stamp;
      }
    }
    forall id | id in gone + [last.id]
      ensures HasId(held, id) && !HasId(held', id) && id !in claims
    {
    }
  }

  lemma SameSession(held: seq<Session>, clock: nat, claims: set<nat>, s: Session, t: Session)
    requires Known(held, clock, claims) && s in held && t in held && s.id == t.id
    ensures s == t
  {
  }

  class SessionCache {
    const maxBlocks: nat
    const maxSessions: nat
    var held: seq<Session>
    var clock: nat
    var claims: set<nat>
    var resumed: nat
    var started: nat
    var reused: nat
    var prefilled: nat

    ghost predicate Valid()
      reads this
    {
      Known(held, clock, claims)
    }

    constructor (maxBlocks: nat, maxSessions: nat)
      ensures Valid() && held == [] && claims == {} && this.maxBlocks == maxBlocks && this.maxSessions == maxSessions
    {
      this.maxBlocks, this.maxSessions := maxBlocks, maxSessions;
      held, clock, claims, resumed, started, reused, prefilled := [], 0, {}, 0, 0, 0, 0;
    }

    method BestMatch(ids: seq<Token>) returns (best: int)
      ensures best == -1 ==> forall i :: 0 <= i < |held| ==> !Claimable(held[i], claims, ids)
      ensures best != -1 ==> 0 <= best && BestAmong(held, claims, ids, best, |held|)
    {
      best := -1;
      var i := 0;
      while i < |held|
        invariant 0 <= i <= |held|
        invariant best == -1 ==> forall j :: 0 <= j < i ==> !Claimable(held[j], claims, ids)
        invariant best != -1 ==> 0 <= best && BestAmong(held, claims, ids, best, i)
      {
        if held[i].id !in claims {
          var shared := CommonPrefix(held[i].tokens, ids);
          PrefixDecides(held[i], ids, shared);
          if shared < |ids| && shared == |held[i].tokens| && (best == -1 || shared > |held[best].tokens|) {
            best := i;
          }
        }
        i := i + 1;
      }
    }

    /** Grants the longest strict prefix among unclaimed sessions, or nothing if there is none;
        only the set of claims changes. */
    method ReserveClaim(ids: seq<Token>) returns (claim: Option<Claim>)
      requires Valid()
      modifies this`claims
      ensures Valid()
      ensures claim.None? ==> claims == old(claims) && forall i :: 0 <= i < |held| ==> !Claimable(held[i], claims, ids)
      ensures claim.Some? ==>
        && (exists i: nat :: i < |held| && BestAmong(held, old(claims), ids, i, |held|) && claim.value == ClaimOf(held[i], ids))
        && claim.value.id !in old(claims) && claims == old(claims) + {claim.value.id}
    {
      var best := BestMatch(ids);
      if best == -1 {
        return None;
      }
      var s := held[best];
      assert s in held && HasId(held, s.id);
      claim := Some(Claim(s.id, |s.tokens|, |s.tokens|, ids[|s.tokens|..]));
      claims := claims + {s.id};
    }

    /** Where a session is, if it is parked. */
    method FindId(id: nat) returns (i: nat)
      ensures i <= |held| && (i < |held| ==> held[i].id == id) && (i == |held| ==> !HasId(held, id))
      ensures forall j :: 0 <= j < i ==> held[j].id != id
    {
      i := 0;
      while i < |held| && held[i].id != id
        invariant i <= |held| && forall j :: 0 <= j < i ==> held[j].id != id
      {
        i := i + 1;
      }
    }

    /** The claimed session leaves the books: its request is running again. */
    method CommitClaim(claim: Claim) returns (ok: bool)
      requires Valid()
      modifies this`claims, this`held, this`resumed, this`reused, this`prefilled
      ensures Valid()
      ensures ok <==> claim.id in old(claims)
      ensures claims == old(claims) - {claim.id}
      ensures ok ==> forall s :: s in held <==> s in old(held) && s.id != claim.id
      ensures !ok ==> held == old(held)
      ensures reused + prefilled == old(reused + prefilled) + (if ok then claim.shared + |claim.suffix| else 0)
    {
      if claim.id !in claims {
        return false;
      }
      var i := FindId(claim.id);
      assert HasId(held, claim.id);
      RemoveAtMembers(held, i, clock, claims);
      claims := claims - {claim.id};
      held := RemoveAt(held, i);
      resumed, reused, prefilled := resumed + 1, reused + claim.shared, prefilled + |claim.suffix|;
      ok := true;
    }

    /** Undoes `ReserveClaim` completely. */
    method RollbackClaim(claim: Claim)
      requires Valid()
      modifies this`claims
      ensures Valid() && claims == old(claims) - {claim.id}
    {
      claims := claims - {claim.id};
    }

    method RecordStart(ids: seq<Token>)
      modifies this`started, this`prefilled
      ensures started == old(started) + 1 && prefilled == old(prefilled) + |ids|
    {
      started, prefilled := started + 1, prefilled + |ids|;
    }

    /** The least recently parked unclaimed session. */
    method OldestIndex(needBlocks: bool) returns (best: int)
      ensures best == -1 ==> NoneEvictable(held, claims, needBlocks)
      ensures best != -1 ==> 0 <= best && IsOldest(held, claims, needBlocks, best)
    {
      best := -1;
      var i := 0;
      while i < |held|
        invariant 0 <= i <= |held|
        invariant best == -1 ==> forall j :: 0 <= j < i ==> !Evictable(held[j], claims, needBlocks)
        invariant best != -1 ==> 0 <= best < i && Evictable(held[best], claims, needBlocks)
        invariant best != -1 ==> forall j :: 0 <= j < i && Evictable(held[j], claims, needBlocks) ==> held[best].stamp <= held[j].stamp
      {
        if held[i].id !in claims && (!needBlocks || held[i].blocks > 0) {
          if best == -1 || held[i].stamp < held[best].stamp {
            best := i;
          }
        }
        i := i + 1;
      }
    }

    /** Retires least recently parked sessions until both bounds hold.  A claimed session is
        never retired, whatever the bounds say. */
    method EvictToFit(tables: map<nat, seq<nat>>) returns (gone: seq<nat>)
      requires Valid()
      modifies this`held
      ensures Valid() && Evicted(old(held), claims, held, gone)
      ensures Fits(held, tables, maxSessions, maxBlocks) || NoneEvictable(held, claims, false)
      ensures gone != [] ==> Needed(old(held), held, gone[|gone| - 1], tables, maxSessions, maxBlocks)
      ensures gone == [] ==> held == old(held)
    {
      hide Known, Evicted, HeldBlocks, Needed;
      gone := [];
      EvictedNone(held, claims);
      while held != [] && (|held| > maxSessions || |HeldBlocks(held, tables)| > maxBlocks)
        invariant Valid() && Evicted(old(held), claims, held, gone)
        invariant gone != [] ==> Needed(old(held), held, gone[|gone| - 1], tables, maxSessions, maxBlocks)
        invariant gone == [] ==> held == old(held)
        decreases |held|
      {
        var i := OldestIndex(false);
        if i == -1 {
          return;
        }
        EvictedOne(old(held), clock, claims, held, gone, i);
        RemoveAtMembers(held, i, clock, claims);
        LastNeeded(old(held), claims, held, gone, i, tables, maxSessions, maxBlocks);
        gone := gone + [held[i].id];
        held := RemoveAt(held, i);
      }
    }

    /** Registers a paused session under the sequence its KV covers, newest of all, and makes
        everything fit again. */
    method Park(id: nat, tokens: seq<Token>, blocks: nat, tables: map<nat, seq<nat>>) returns (gone: seq<nat>)
      requires Valid()
      modifies this`held, this`clock
      ensures Valid() && clock == old(clock) + 1
      ensures var all := Registered(old(held), Session(id, tokens, blocks, old(clock) + 1));
        && Evicted(all, claims, held, gone)
        && (Fits(held, tables, maxSessions, maxBlocks) || NoneEvictable(held, claims, false))
        && (gone != [] ==> Needed(all, held, gone[|gone| - 1], tables, maxSessions, maxBlocks))
        && (gone == [] ==> held == all)
    {
      hide Known, Evicted, HasId, Registered, NoneEvictable, Fits, Needed;
      var i := FindId(id);
      clock := clock + 1;
      var s := Session(id, tokens, blocks, clock);
      RegisteredAt(old(held), old(clock), claims, s, i);
      held := if i < |held| then held[i := s] else held + [s];
      gone := EvictToFit(tables);
    }

    method UpdateBlocks(id: nat, blocks: nat)
      requires Valid()
      modifies this`held
      ensures Valid() && |held| == |old(held)|
      ensures forall j :: 0 <= j < |held| ==>
        held[j] == if old(held)[j].id == id then old(held)[j].(blocks := blocks) else old(held)[j]
    {
      var i := FindId(id);
      if i < |held| {
        UpdatedKnown(held, clock, claims, i, blocks);
        held := held[i := held[i].(blocks := blocks)];
      }
    }

    method Forget(id: nat)
      requires Valid()
      modifies this`held, this`claims
      ensures Valid() && claims == old(claims) - {id}
      ensures forall s :: s in held <==> s in old(held) && s.id != id
    {
      var i := FindId(id);
      if i < |held| {
        RemoveAtMembers(held, i, clock, claims);
        held := RemoveAt(held, i);
      }
      claims := claims - {id};
    }

    /** Retires the one unclaimed session that holds exactly this history; siblings that hold
        the same history are never guessed between. */
    method FinishExact(tokens: seq<Token>) returns (id: Option<nat>)
      requires Valid()
      modifies this`held, this`claims
      ensures Valid() && claims == old(claims)
      ensures id.Some? <==> ExactlyOne(old(held), tokens) && exists s :: s in old(held) && s.tokens == tokens && s.id !in old(claims)
      ensures id.Some? ==> exists s :: s in old(held) && s.id == id.value && s.tokens == tokens && s.id !in old(claims)
      ensures forall s :: s in held <==> s in old(held) && id != Some(s.id)
      ensures id.None? ==> held == old(held)
    {
      hide Known;
      var first, many, i := -1, false, 0;
      while i < |held|
        invariant 0 <= i <= |held| && -1 <= first < i && held == old(held) && claims == old(claims)
        invariant first == -1 ==> !many && forall j :: 0 <= j < i ==> held[j].tokens != tokens
        invariant first != -1 ==> held[first].tokens == tokens && forall j :: 0 <= j < first ==> held[j].tokens != tokens
        invariant first != -1 ==> (many <==> exists j :: first < j < i && held[j].tokens == tokens)
      {
        if held[i].tokens == tokens {
          if first == -1 {
            first := i;
          } else {
            many := true;
          }
        }
        i := i + 1;
      }
      if many || first == -1 || held[first].id in claims {
        return None;
      }
      assert ExactlyOne(held, tokens);
      assert held[first] in held;
      id := Some(held[first].id);
      Forget(held[first].id);
    }

    method DropAll() returns (ids: seq<nat>)
      requires Valid()
      modifies this`held, this`claims
      ensures Valid() && held == [] && claims == {}
      ensures |ids| == |old(held)| && forall i :: 0 <= i < |ids| ==> ids[i] == old(held)[i].id
    {
      ids := seq(|held|, i requires 0 <= i < |held| reads this => held[i].id);
      held, claims := [], {};
    }
  }

  ghost predicate ExactlyOne(held: seq<Session>, tokens: seq<Token>) {
    exists i :: 0 <= i < |held| && held[i].tokens == tokens && forall j :: 0 <= j < |held| && j != i ==> held[j].tokens != tokens
  }

  /** A session under its id, replacing an earlier entry in place. */
  function Registered(held: seq<Session>, s: Session): seq<Session> {
    if held == [] then [s]
    else if held[0].id == s.id then [s] + held[1..]
    else [held[0]] + Registered(held[1..], s)
  }

  lemma {:induction false} RegisteredShape(held: seq<Session>, s: Session, i: nat)
    requires i <= |held| && (i < |held| ==> held[i].id == s.id) && forall j :: 0 <= j < i ==> held[j].id != s.id
    ensures Registered(held, s) == if i < |held| then held[i := s] else held + [s]
    decreases |held|
  {
    if held != [] && held[0].id != s.id {
      RegisteredShape(held[1..], s, i - 1);
    }
  }

  lemma RegisteredAt(held: seq<Session>, clock: nat, claims: set<nat>, s: Session, i: nat)
    requires Known(held, clock, claims) && s.stamp == clock + 1
    requires i <= |held| && (i < |held| ==> held[i].id == s.id) && (forall j :: 0 <= j < i ==> held[j].id != s.id)
    ensures Registered(held, s) == if i < |held| then held[i := s] else held + [s]
    ensures Known(Registered(held, s), clock + 1, claims)
  {
    hide Registered, HasId;
    RegisteredShape(held, s, i);
    var all := if i < |held| then held[i := s] else held + [s];
    assert forall j :: 0 <= j < |held| && j != i ==> all[j] == held[j] && held[j] in held;
    assert all[i] == s;
    forall id | id in claims
      ensures HasId(all, id)
    {
      RegisteredIds(held, s, i, id);
    }
  }

  lemma RegisteredIds(held: seq<Session>, s: Session, i: nat, id: nat)
    requires i <= |held| && (i < |held| ==> held[i].id == s.id) && HasId(held, id)
    ensures HasId(if i < |held| then held[i := s] else held + [s], id)
  {
    var all := if i < |held| then held[i := s] else held + [s];
    var t :| t in held && t.id == id;
    var j :| 0 <= j < |held| && held[j] == t;
    assert all[j] in all && all[j].id == id;
  }

  lemma UpdatedKnown(held: seq<Session>, clock: nat, claims: set<nat>, i: nat, blocks: nat)
    requires Known(held, clock, claims) && i < |held|
    ensures Known(held[i := held[i].(blocks := blocks)], clock, claims)
  {
    var all := held[i := held[i].(blocks := blocks)];
    forall id | id in claims
      ensures HasId(all, id)
    {
      assert HasId(held, id);
      var t :| t in held && t.id == id;
      var j :| 0 <= j < |held| && held[j] == t;
      assert all[j].id == id;
    }
    assert forall s :: s in all ==> exists j :: 0 <= j < |held| && s == all[j];
  }
}

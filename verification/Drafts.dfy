/** Keeping a request's n-gram index in step with its history. */
module Drafts {
  import opened Kv
  import opened BlockPool
  import N = Ngram

  const MAX_MODEL_LEN := 65536

  /** What an index was built from. */
  datatype Index = Index(tokens: seq<Token>, lo: nat, hi: nat)

  /** Catching up with a history is decided by the window and by length alone. */
  function Synced(index: Option<Index>, tokens: seq<Token>, lo: nat, hi: nat): Index {
    if index.None? || index.value.lo != lo || index.value.hi != hi || |index.value.tokens| > |tokens| then Index(tokens, lo, hi)
    else Index(index.value.tokens + tokens[|index.value.tokens|..], lo, hi)
  }

  /** A consultation of the index: the index afterwards, and what it proposes. */
  ghost function Answer(index: Option<Index>, tokens: seq<Token>, room: nat, k: int, lo: nat, hi: nat): (Option<Index>, seq<Token>) {
    if room == 0 || k <= 0 then (index, [])
    else
      var index' := Synced(index, tokens, lo, hi);
      (Some(index'), N.Proposal(index'.tokens, lo, hi, Min(k, room), MAX_MODEL_LEN))
  }

  /** `propose_drafts`: with recorded tokens to replay, `rest` being those still to come, they
      are the drafts and the index is not consulted. */
  ghost function Drafted(index: Option<Index>, tokens: seq<Token>, room: nat, k: int, lo: nat, hi: nat, rest: Option<seq<Token>>):
    (Option<Index>, seq<Token>, bool)
  {
    if room > 0 && k > 0 && rest.Some? then (index, rest.value[..Min(Min(k, room), |rest.value|)], true)
    else
      var (index', drafts) := Answer(index, tokens, room, k, lo, hi);
      (index', drafts, false)
  }

  /** Length decides rightly exactly when the index is rebuilt anyway or was built from an
      earlier state of this very history. */
  lemma SyncedExact(index: Option<Index>, tokens: seq<Token>, lo: nat, hi: nat)
    ensures Synced(index, tokens, lo, hi).tokens == tokens <==>
              index.None? || index.value.lo != lo || index.value.hi != hi || |index.value.tokens| > |tokens| || index.value.tokens <= tokens
  {
    if index.Some? && |index.value.tokens| <= |tokens| {
      var had := index.value.tokens;
      assert (had + tokens[|had|..])[..|had|] == had;
      assert tokens == tokens[..|had|] + tokens[|had|..];
    }
  }

  class DraftSource {
    var index: N.NgramIndex?

    constructor ()
      ensures State() == None && Valid()
    {
      index := null;
    }

    ghost predicate Valid()
      reads this, index
    {
      index != null ==> index.Valid()
    }

    function State(): Option<Index>
      reads this, index
    {
      if index == null then None else Some(Index(index.tokens, index.minNgram, index.maxNgram))
    }

    /** `propose_drafts`; the second result is `teacher_force`. */
    method ProposeDrafts(tokens: seq<Token>, room: nat, k: int, lo: nat, hi: nat, rest: Option<seq<Token>>) returns (drafts: seq<Token>, teacher: bool)
      requires Valid()
      modifies this, index
      ensures Valid() && (State(), drafts, teacher) == Drafted(old(State()), tokens, room, k, lo, hi, rest)
    {
      if room == 0 || k <= 0 {
        return [], false;
      }
      if rest.Some? {
        return rest.value[..Min(Min(k, room), |rest.value|)], true;
      }
      teacher := false;
      drafts := ProposeFromIndex(tokens, room, k, lo, hi);
    }

    /** The index is brought in step and consulted. */
    method ProposeFromIndex(tokens: seq<Token>, room: nat, k: int, lo: nat, hi: nat) returns (drafts: seq<Token>)
      requires Valid() && room > 0 && k > 0
      modifies this, index
      ensures Valid() && (State(), drafts) == Answer(old(State()), tokens, room, k, lo, hi)
    {
      if index == null || index.minNgram != lo || index.maxNgram != hi {
        Rebuild(tokens, lo, hi);
      } else if |index.tokens| < |tokens| {
        index.Extend(tokens[|index.tokens|..]);
      } else if |index.tokens| > |tokens| {
        Rebuild(tokens, lo, hi);
      } else {
        assert index.tokens + tokens[|index.tokens|..] == index.tokens;
      }
      drafts := index.Propose(Min(k, room), MAX_MODEL_LEN);
    }

    method Rebuild(tokens: seq<Token>, lo: nat, hi: nat)
      modifies this
      ensures Valid() && State() == Some(Index(tokens, lo, hi)) && fresh(index)
    {
      index := new N.NgramIndex(lo, hi);
      index.Extend(tokens);
      assert [] + tokens == tokens;
    }
  }
}

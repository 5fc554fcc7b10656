/**
 Cancel tokens of running transfers, recycled through a cache. A token once cancelled can never be
 un-cancelled, so it must not come back to the cache.
 */
module CancelTokens {
  type Seqnum = nat
  type Token = nat

  /** Tokens by running transfer, spare tokens, the tokens cancelled so far, and the next new token. */
  datatype Tokens = Tokens(active: map<Seqnum, Token>, cache: seq<Token>, cancelled: set<Token>, unused: Token)

  const NO_TOKENS := Tokens(map[], [], {}, 0)

  function NextToken(t: Tokens): Token {
    if t.cache == [] then t.unused else t.cache[|t.cache| - 1]
  }

  function Register(t: Tokens, s: Seqnum): Tokens {
    t.(active := t.active[s := NextToken(t)],
       cache := if t.cache == [] then [] else t.cache[..|t.cache| - 1],
       unused := if t.cache == [] then t.unused + 1 else t.unused)
  }

  function Cancel(t: Tokens, s: Seqnum): Tokens {
    if s in t.active then t.(active := t.active - {s}, cancelled := t.cancelled + {t.active[s]}) else t
  }

  function Deregister(t: Tokens, s: Seqnum): Tokens {
    if s in t.active then t.(active := t.active - {s}, cache := t.cache + [t.active[s]]) else t
  }

  /** Active and cached tokens are all different and none is cancelled. */
  ghost predicate Clean(t: Tokens) {
    && (forall i, j :: 0 <= i < j < |t.cache| ==> t.cache[i] != t.cache[j])
    && (forall i :: 0 <= i < |t.cache| ==> t.cache[i] < t.unused && t.cache[i] !in t.cancelled)
    && (forall s :: s in t.active ==> t.active[s] < t.unused && t.active[s] !in t.cancelled && t.active[s] !in t.cache)
    && (forall s, r :: s in t.active && r in t.active && t.active[s] == t.active[r] ==> s == r)
    && (forall k :: k in t.cancelled ==> k < t.unused)
  }

  lemma RegisterKeepsClean(t: Tokens, s: Seqnum)
    requires Clean(t)
    ensures Clean(Register(t, s))
    ensures NextToken(t) !in t.cancelled && NextToken(t) !in Register(t, s).cache
    ensures forall r :: r in t.active ==> t.active[r] != NextToken(t)
  {
  }

  lemma CancelKeepsClean(t: Tokens, s: Seqnum)
    requires Clean(t)
    ensures Clean(Cancel(t, s))
  {
  }

  lemma DeregisterKeepsClean(t: Tokens, s: Seqnum)
    requires Clean(t)
    ensures Clean(Deregister(t, s))
  {
  }

  /** Every token made so far is in use, spare or cancelled: none is lost. */
  ghost predicate Accounted(t: Tokens) {
    forall k: Token :: k < t.unused ==> k in t.cache || k in t.cancelled || k in t.active.Values
  }

  lemma RegisterKeepsAccounted(t: Tokens, s: Seqnum)
    requires Accounted(t) && s !in t.active
    ensures Accounted(Register(t, s))
  {
    var u := Register(t, s);
    assert u.active[s] == NextToken(t);
    forall k: Token | k < u.unused && k != NextToken(t)
      ensures k in u.cache || k in u.cancelled || k in u.active.Values
    {
      if k in t.active.Values {
        var r :| r in t.active && t.active[r] == k;
        assert u.active[r] == k;
      } else if k in t.cache {
        assert t.cache == u.cache + [NextToken(t)];
      }
    }
  }

  lemma CancelKeepsAccounted(t: Tokens, s: Seqnum)
    requires Accounted(t)
    ensures Accounted(Cancel(t, s))
  {
    ActiveElsewhere(t, s, Cancel(t, s));
  }

  lemma DeregisterKeepsAccounted(t: Tokens, s: Seqnum)
    requires Accounted(t)
    ensures Accounted(Deregister(t, s))
  {
    ActiveElsewhere(t, s, Deregister(t, s));
  }

  lemma ActiveElsewhere(t: Tokens, s: Seqnum, u: Tokens)
    requires u.active == t.active - {s}
    ensures forall k: Token :: k in t.active.Values ==> k in u.active.Values || (s in t.active && k == t.active[s])
  {
    forall k: Token | k in t.active.Values && !(s in t.active && k == t.active[s])
      ensures k in u.active.Values
    {
      var r :| r in t.active && t.active[r] == k;
      assert u.active[r] == k;
    }
  }

  /** The token tables the lender's two handlers share. */
  class TokenTables {
    var activeTransfers: map<Seqnum, Token>
    var cachedCancelTokens: seq<Token>
    /** The tokens themselves: how many exist and which are cancelled. */
    var created: nat
    var cancelled: set<Token>

    ghost function Now(): Tokens
      reads this
    {
      Tokens(activeTransfers, cachedCancelTokens, cancelled, created)
    }

    constructor ()
      ensures Now() == NO_TOKENS
    {
      activeTransfers, cachedCancelTokens, created, cancelled := map[], [], 0, {};
    }

    method RegisterCancelToken(s: Seqnum) returns (cancel: Token)
      requires Clean(Now())
      modifies this
      ensures Now() == Register(old(Now()), s) && Clean(Now())
      ensures cancel !in cancelled && activeTransfers == old(activeTransfers)[s := cancel]
      ensures if old(cachedCancelTokens) != []
              then old(cachedCancelTokens) == cachedCancelTokens + [cancel] && created == old(created)
              else cachedCancelTokens == [] && cancel == old(created) && created == cancel + 1
    {
      RegisterKeepsClean(Now(), s);
      if cachedCancelTokens == [] {
        cancel := created;
        created := created + 1;
      } else {
        cancel := cachedCancelTokens[|cachedCancelTokens| - 1];
        cachedCancelTokens := cachedCancelTokens[..|cachedCancelTokens| - 1];
      }
      activeTransfers := activeTransfers[s := cancel];
    }

    method CancelUrb(s: Seqnum)
      requires Clean(Now())
      modifies this
      ensures Now() == Cancel(old(Now()), s) && Clean(Now())
      ensures s !in activeTransfers
      ensures cancelled == old(cancelled) + if s in old(activeTransfers) then {old(activeTransfers)[s]} else {}
    {
      CancelKeepsClean(Now(), s);
      if s in activeTransfers {
        var transfer := activeTransfers[s];
        activeTransfers := activeTransfers - {s};
        cancelled := cancelled + {transfer};
      }
    }

    method DeregisterToken(s: Seqnum)
      requires Clean(Now())
      modifies this
      ensures Now() == Deregister(old(Now()), s) && Clean(Now())
      ensures s !in activeTransfers && cancelled == old(cancelled)
      ensures cachedCancelTokens ==
              old(cachedCancelTokens) + if s in old(activeTransfers) then [old(activeTransfers)[s]] else []
    {
      DeregisterKeepsClean(Now(), s);
      if s in activeTransfers {
        var token := activeTransfers[s];
        assert token !in cancelled;
        activeTransfers := activeTransfers - {s};
        cachedCancelTokens := cachedCancelTokens + [token];
      }
    }
  }
}

/** The browser session table (crates/rx-api/src/auth.rs, `insert`, `resolve`, `remove`). Tokens stand for their
    digests. The clock is read under the lock, so the instants of successive calls never go back. */
module Sessions {
  import opened Base

  type Token = nat

  datatype Session = Session(identity: Name, expires: nat)

  datatype Fault = Busy | Unavailable | Unauthenticated

  const MAX_SESSIONS: nat := 1024
  const LIFETIME: nat := 3600 * 1_000_000_000

  /** The sessions that have not expired at `now`. */
  function Live(sessions: map<Token, Session>, now: nat): map<Token, Session> {
    map t | t in sessions && sessions[t].expires > now :: sessions[t]
  }

  function Lookup(sessions: map<Token, Session>, token: Token, now: nat): Option<Name> {
    if token in sessions && sessions[token].expires > now then Some(sessions[token].identity) else None
  }

  /** A session lasts an hour: opened at one instant, its token stands for its identity before the hour is over, and not
      from then on; and it is among the live ones just as long. */
  lemma SessionsLastAnHour(sessions: map<Token, Session>, token: Token, identity: Name, since: nat, now: nat)
    ensures var t := sessions[token := Session(identity, since + LIFETIME)];
      && (Lookup(t, token, now) == Some(identity) <==> now < since + 3_600_000_000_000)
      && (Lookup(t, token, now) == None <==> now >= since + 3_600_000_000_000)
      && (token in Live(t, now) <==> now < since + 3_600_000_000_000)
      && (forall other | other != token :: Lookup(t, other, now) == Lookup(sessions, other, now))
  {
  }

  lemma LiveLater(a: map<Token, Session>, b: map<Token, Session>, now: nat, later: nat)
    requires Live(a, now) == Live(b, now) && now <= later
    ensures Live(a, later) == Live(b, later)
    ensures forall t :: Lookup(a, t, later) == Lookup(b, t, later)
  {
    forall t
      ensures t in Live(a, later) <==> t in Live(b, later)
      ensures t in Live(a, later) ==> a[t] == b[t]
    {
      if t in Live(a, later) { assert t in Live(a, now) && Live(a, now)[t] == Live(b, now)[t]; }
      if t in Live(b, later) { assert t in Live(b, now) && Live(a, now)[t] == Live(b, now)[t]; }
    }
  }

  lemma LiveInsert(a: map<Token, Session>, b: map<Token, Session>, token: Token, s: Session, now: nat)
    requires Live(a, now) == Live(b, now)
    ensures Live(a[token := s], now) == Live(b[token := s], now)
  {
    var x, y := Live(a[token := s], now), Live(b[token := s], now);
    forall t
      ensures t in x <==> t in y
      ensures t in x ==> x[t] == y[t]
    {
      if t != token {
        assert t in x <==> t in Live(a, now);
        assert t in y <==> t in Live(b, now);
      }
    }
  }

  lemma LiveRemove(a: map<Token, Session>, b: map<Token, Session>, token: Token, now: nat)
    requires Live(a, now) == Live(b, now)
    ensures Live(a - {token}, now) == Live(b - {token}, now)
  {
    var x, y := Live(a - {token}, now), Live(b - {token}, now);
    forall t
      ensures t in x <==> t in y
      ensures t in x ==> x[t] == y[t]
    {
      if t != token {
        assert t in x <==> t in Live(a, now);
        assert t in y <==> t in Live(b, now);
      }
    }
  }

  class SessionTable {
    var sessions: map<Token, Session>
    /** Every session ever opened and not removed since, expired ones included. */
    ghost var history: map<Token, Session>
    /** The latest instant seen. */
    ghost var latest: nat

    ghost predicate Valid()
      reads this
    {
      Live(sessions, latest) == Live(history, latest) && |sessions| <= MAX_SESSIONS
    }

    constructor ()
      ensures Valid() && history == map[]
    {
      sessions, history, latest := map[], map[], 0;
    }

    /** Open a session unless as many as the limit are still live, whatever has been pruned so far. */
    method Insert(token: Token, identity: Name, now: nat) returns (r: Result<(), Fault>)
      requires Valid() && latest <= now
      modifies this
      ensures Valid() && latest == now
      ensures r == if |Live(old(history), now)| >= MAX_SESSIONS then Err(Busy)
                   else if token in Live(old(history), now) then Err(Unavailable) else Ok(())
      ensures history == if r.Ok? then old(history)[token := Session(identity, now + LIFETIME)] else old(history)
    {
      LiveLater(sessions, history, latest, now);
      sessions := Live(sessions, now);
      latest := now;
      assert Live(sessions, now) == sessions;
      LiveIsSmaller(old(sessions), now);
      if |sessions| >= MAX_SESSIONS { return Err(Busy); }
      if token in sessions { return Err(Unavailable); }
      var session := Session(identity, now + LIFETIME);
      LiveInsert(sessions, history, token, session, now);
      sessions, history := sessions[token := session], history[token := session];
      r := Ok(());
    }

    /** A token stands for its identity exactly while its session was opened, not removed and not expired. */
    method Resolve(token: Token, now: nat) returns (r: Result<Name, Fault>)
      requires Valid() && latest <= now
      modifies this
      ensures Valid() && latest == now && history == old(history)
      ensures match Lookup(history, token, now) case Some(identity) => r == Ok(identity) case None => r == Err(Unauthenticated)
    {
      LiveLater(sessions, history, latest, now);
      latest := now;
      assert Lookup(sessions, token, now) == Lookup(history, token, now);
      if token !in sessions { return Err(Unauthenticated); }
      if sessions[token].expires <= now {
        assert Live(sessions - {token}, now) == Live(sessions, now);
        RemoveIsSmaller(sessions, token);
        sessions := sessions - {token};
        return Err(Unauthenticated);
      }
      r := Ok(sessions[token].identity);
    }

    method Remove(token: Token)
      requires Valid()
      modifies this
      ensures Valid() && latest == old(latest) && history == old(history) - {token}
    {
      LiveRemove(sessions, history, token, latest);
      RemoveIsSmaller(sessions, token);
      sessions, history := sessions - {token}, history - {token};
    }
  }

  lemma LiveIsSmaller(sessions: map<Token, Session>, now: nat)
    ensures |Live(sessions, now)| <= |sessions|
  {
    KeysOrder(Live(sessions, now), sessions);
  }

  lemma RemoveIsSmaller(sessions: map<Token, Session>, token: Token)
    ensures |sessions - {token}| <= |sessions|
  {
    KeysOrder(sessions - {token}, sessions);
  }

  lemma KeysOrder(a: map<Token, Session>, b: map<Token, Session>)
    requires a.Keys <= b.Keys
    ensures |a| <= |b|
  {
    var rest := b.Keys - a.Keys;
    assert b.Keys == a.Keys + rest;
    assert |b.Keys| == |a.Keys| + |rest|;
    assert |a| == |a.Keys| && |b| == |b.Keys|;
  }
}

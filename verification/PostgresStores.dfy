/**
 packages/digi-bridge/src/postgres-stores.ts and the write of exchange.ts on one connection, statement
 by statement.  The connection carries out some number of statements and then fails; what fails inside
 a transaction rolls it back.  Other connections are the business of ExchangeMachine.
 */
module PostgresStores {
  import opened Results
  import opened Owners
  import opened ExchangeMachine
  import opened ExchangeInvariant

  /** How a store call ends: with a value, or by throwing. */
  datatype Attempt<+T> = Returned(value: T) | Threw

  // ----- rows -----

  function WithOwner(w: Tables, o: string): Tables
  {
    w.(owners := w.owners + {o})
  }

  function WithIdentity(w: Tables, pair: Pair, o: string): Tables
  {
    w.(identities := w.identities[pair := o])
  }

  /** What the UPDATE of a known pair returns. */
  function OwnerRow(db: Tables, w: Tables, pair: Pair): string
    requires pair in db.identities || pair in w.identities
  {
    if pair in w.identities then w.identities[pair] else db.identities[pair]
  }

  lemma KnownRow(db: Tables, w: Tables, pair: Pair)
    requires OwnersOk(Merge(db, w)) && (pair in db.identities || pair in w.identities)
    ensures Maps(Merge(db, w), pair, OwnerRow(db, w, pair))
    ensures OwnerRow(db, w, pair) in db.owners || OwnerRow(db, w, pair) in w.owners
  {
  }

  lemma SpeculationUndone(w: Tables, o: string)
    requires o !in w.owners
    ensures var s := WithOwner(w, o); s.(owners := s.owners - {o}) == w
  {
  }

  lemma NewRows(db: Tables, w: Tables, pair: Pair, o: string)
    requires Apart(db, w) && o !in Merge(db, w).owners
    ensures Apart(db, WithOwner(w, o))
    ensures pair !in db.identities && pair !in w.identities ==>
      Apart(db, WithIdentity(WithOwner(w, o), pair, o))
      && Merge(db, WithIdentity(WithOwner(w, o), pair, o)) == WithIdentity(WithOwner(Merge(db, w), o), pair, o)
  {
    var made := WithIdentity(WithOwner(w, o), pair, o);
    if pair !in db.identities && pair !in w.identities {
      assert Merge(db, made).identities == Merge(db, w).identities[pair := o];
      assert Merge(db, made).owners == Merge(db, w).owners + {o};
    }
  }

  class Connection {
    var db: Tables
    /** The rows of the transaction that `txStorage` binds, when one is open. */
    var bound: Option<Tables>
    /** How many more statements the connection carries out. */
    var left: nat

    /** What a statement on this connection sees. */
    ghost function View(): Tables
      reads this
    {
      if bound.Some? then Merge(db, bound.value) else db
    }

    /** A transaction only adds rows, under keys that are free. */
    ghost predicate Fits()
      reads this
    {
      bound.Some? ==> Apart(db, bound.value)
    }

    constructor (db: Tables, left: nat)
      ensures Fits() && this.db == db && bound == None && this.left == left
    {
      this.db, bound, this.left := db, None, left;
    }

    /** One round trip: it succeeds, or the connection has failed. */
    method Query() returns (ok: bool)
      modifies this`left
      ensures ok <==> old(left) > 0
      ensures left == if ok then old(left) - 1 else 0
    {
      ok := left > 0;
      if ok { left := left - 1; }
    }

    method Begin() returns (ok: bool)
      requires bound.None?
      modifies this`left, this`bound
      ensures Fits() && bound == if ok then Some(NOTHING) else None
      ensures View() == old(View())
      ensures if old(left) > 0 then ok && left == old(left) - 1 else !ok
    {
      ok := Query();
      if ok {
        bound := Some(NOTHING);
        assert Merge(db, NOTHING) == db;
      }
    }

    /** COMMIT, or ROLLBACK when it or anything before it failed. */
    method Finish(done: bool) returns (ok: bool)
      requires bound.Some?
      modifies this
      ensures bound == None && (ok ==> done) && (done && old(left) > 0 ==> ok)
      ensures db == if ok then old(View()) else old(db)
      ensures left + 1 >= old(left)
    {
      ok := done;
      if ok { ok := Query(); }
      if ok { db := Merge(db, bound.value); }
      bound := None;
    }

    // ----- the statements of the store calls, on the bound client -----

    method Consume(jti: string, pair: Pair) returns (r: Attempt<bool>)
      requires Fits() && bound.Some?
      modifies this`left, this`bound
      ensures Fits() && bound.Some?
      ensures r.Returned? ==> (r.value <==> jti !in old(View()).consumed)
      ensures View() == if r.Returned? && r.value then old(View()).(consumed := old(View()).consumed[jti := pair])
                        else old(View())
      ensures if old(left) > 0 then r.Returned? && left == old(left) - 1 else r.Threw?
    {
      var w := bound.value;
      var ok := Query();
      if !ok { return Threw; }
      if jti in db.consumed || jti in w.consumed { return Returned(false); }
      bound := Some(w.(consumed := w.consumed[jti := pair]));
      assert View().consumed == old(View()).consumed[jti := pair];
      return Returned(true);
    }

    /**
     The speculative owner row, the identity row or its conflict, and what follows.  What it leaves is
     what the locked store leaves: no trace of the speculative owner when the pair was known, and none
     of the errors for missing rows is reached.
     */
    method Resolve(pair: Pair, newOwner: string) returns (r: Attempt<Found>)
      requires Fits() && bound.Some? && OwnersOk(View()) && newOwner !in View().owners
      modifies this`left, this`bound
      ensures Fits() && bound.Some?
      ensures r.Returned? ==> (View().identities, r.value) == Locked(old(View()).identities, pair, newOwner)
      ensures r.Returned? ==> View().owners == old(View()).owners + (if r.value.created then {newOwner} else {})
      ensures r.Returned? ==> View().consumed == old(View()).consumed && View().sessions == old(View()).sessions
      ensures r.Threw? ==> old(left) < 5
      ensures left + 5 >= old(left)
    {
      var w := bound.value;
      NewRows(db, w, pair, newOwner);
      SpeculationUndone(w, newOwner);
      if pair in db.identities || pair in w.identities { KnownRow(db, w, pair); }
      assert pair in Merge(db, w).identities <==> pair in db.identities || pair in w.identities;
      hide Merge, Apart, OwnersOk;
      var ok := Query();
      if !ok { return Threw; }
      bound := Some(WithOwner(w, newOwner));
      ok := Query();
      if !ok { return Threw; }
      if pair in db.identities || pair in w.identities {
        ok := Query();
        if !ok { return Threw; }
        bound := Some(bound.value.(owners := bound.value.owners - {newOwner}));
        ok := Query();
        if !ok { return Threw; }
        var o := OwnerRow(db, w, pair);
        ok := Query();
        if !ok || (o !in db.owners && o !in w.owners) { return Threw; }
        return Returned(Found(o, false));
      }
      bound := Some(WithIdentity(bound.value, pair, newOwner));
      ok := Query();
      if !ok { return Threw; }
      return Returned(Found(newOwner, true));
    }

    method InsertSession(found: Found, jti: string, id: string) returns (r: Attempt<()>)
      requires Fits() && bound.Some? && found.ownerId in View().owners && id !in View().sessions
      modifies this`left, this`bound
      ensures Fits() && bound.Some?
      ensures View()
           == if r.Returned? then old(View()).(sessions := old(View()).sessions[id := Session(found.ownerId, jti)])
              else old(View())
      ensures if old(left) > 0 then r.Returned? && left == old(left) - 1 else r.Threw?
    {
      var w := bound.value;
      var ok := Query();
      if !ok { return Threw; }
      bound := Some(w.(sessions := w.sessions[id := Session(found.ownerId, jti)]));
      assert View().sessions == old(View()).sessions[id := Session(found.ownerId, jti)];
      return Returned(());
    }

    // ----- the store calls: `withClient` joins an open transaction, or runs its own -----

    /** Joining never commits early; a transaction of its own commits all or nothing. */
    twostate predicate Joins()
      reads this
    {
      Fits() && (old(bound).Some? ==> bound.Some? && db == old(db)) && (old(bound).None? ==> bound.None?)
    }

    /**
     A store call of `n` statements, and BEGIN and COMMIT if it joins nothing, uses no more than these and
     throws only if the connection does not last as long.
     */
    twostate predicate InReach(threw: bool, n: nat)
      reads this
    {
      var all := if old(bound).Some? then n else n + 2;
      left + all >= old(left) && (threw ==> old(left) < all)
    }

    method TryConsume(jti: string, pair: Pair) returns (r: Attempt<bool>)
      requires Fits()
      modifies this
      ensures Joins()
      ensures r.Returned? ==> (r.value <==> jti !in old(View()).consumed)
      ensures r.Returned? ==>
        View() == if r.value then old(View()).(consumed := old(View()).consumed[jti := pair]) else old(View())
      ensures r.Threw? && old(bound).None? ==> db == old(db)
      ensures InReach(r.Threw?, 1)
    {
      if bound.Some? {
        r := Consume(jti, pair);
        return;
      }
      var ok := Begin();
      if !ok { return Threw; }
      r := Consume(jti, pair);
      ok := Finish(r.Returned?);
      if !ok { r := Threw; }
    }

    method ResolveOrCreate(pair: Pair, newOwner: string) returns (r: Attempt<Found>)
      requires Fits() && OwnersOk(View()) && newOwner !in View().owners
      modifies this
      ensures Joins()
      ensures r.Returned? ==> (View().identities, r.value) == Locked(old(View()).identities, pair, newOwner)
      ensures r.Returned? ==> View().owners == old(View()).owners + (if r.value.created then {newOwner} else {})
      ensures r.Returned? ==> View().consumed == old(View()).consumed && View().sessions == old(View()).sessions
      ensures r.Threw? && old(bound).None? ==> db == old(db)
      ensures InReach(r.Threw?, 5)
    {
      if bound.Some? {
        r := Resolve(pair, newOwner);
        return;
      }
      var ok := Begin();
      if !ok { return Threw; }
      r := Resolve(pair, newOwner);
      ok := Finish(r.Returned?);
      if !ok { r := Threw; }
    }

    method CreateSession(found: Found, jti: string, id: string) returns (r: Attempt<()>)
      requires Fits() && found.ownerId in View().owners && id !in View().sessions
      modifies this
      ensures Joins()
      ensures r.Returned? ==>
        View() == old(View()).(sessions := old(View()).sessions[id := Session(found.ownerId, jti)])
      ensures r.Threw? && old(bound).None? ==> db == old(db)
      ensures InReach(r.Threw?, 1)
    {
      if bound.Some? {
        r := InsertSession(found, jti, id);
        return;
      }
      var ok := Begin();
      if !ok { return Threw; }
      r := InsertSession(found, jti, id);
      ok := Finish(r.Returned?);
      if !ok { r := Threw; }
    }

    // ----- the write of an exchange -----

    /** The three store calls in order: `fn` of `runWrite`. */
    method Write(jti: string, pair: Pair, newOwner: string, sessionId: string) returns (r: Attempt<Outcome>)
      requires Fits() && OwnersOk(View()) && newOwner !in View().owners && sessionId !in View().sessions
      modifies this
      ensures Joins()
      ensures r.Returned? ==> (r.value == Replay <==> jti in old(View()).consumed)
      ensures r.Returned? ==> Signs(old(View()), View(), jti, pair, newOwner, sessionId, r.value)
      ensures r.Threw? && old(bound).None? ==> db.sessions == old(db).sessions
      ensures r.Threw? ==> old(left) < if old(bound).Some? then 7 else 13
      ensures left + (if old(bound).Some? then 7 else 13) >= old(left)
    {
      ghost var a := View();
      var first := TryConsume(jti, pair);
      if first.Threw? { return Threw; }
      hide Merge, Apart;
      if !first.value {
        hide OwnersOk;
        return Returned(Replay);
      }
      ghost var m := View();
      ConsumedOwners(a, m);
      hide OwnersOk;
      var found := ResolveOrCreate(pair, newOwner);
      if found.Threw? { return Threw; }
      ghost var n := View();
      GivenOwner(m, n, pair, newOwner, found.value);
      var made := CreateSession(found.value, jti, sessionId);
      if made.Threw? { return Threw; }
      return Returned(SignedIn(found.value, sessionId));
    }

    /**
     `exchangeTrustIdAssertion` after verification.  With `runDigiCoreTransaction` around the write it
     is all or nothing: an error leaves the database as it was, and a success consumes the assertion,
     gives its pair an owner and opens one session, together.
     */
    method Exchange(
        joined: bool, jti: string, pair: Pair, newOwner: string, sessionId: string) returns (r: Attempt<Outcome>)
      requires Fits() && bound.None? && OwnersOk(db) && newOwner !in db.owners && sessionId !in db.sessions
      modifies this
      ensures bound.None?
      ensures joined && r.Threw? ==> db == old(db)
      ensures r.Threw? ==> db.sessions == old(db).sessions
      ensures r.Returned? ==>
        (r.value == Replay <==> jti in old(db).consumed) && Signs(old(db), db, jti, pair, newOwner, sessionId, r.value)
      ensures r.Threw? ==> old(left) < if joined then 9 else 13
    {
      if !joined {
        r := Write(jti, pair, newOwner, sessionId);
        return;
      }
      var ok := Begin();
      if !ok { return Threw; }
      r := Write(jti, pair, newOwner, sessionId);
      ok := Finish(r.Returned?);
      if !ok { r := Threw; }
    }
  }

  lemma ConsumedOwners(a: Tables, b: Tables)
    requires OwnersOk(a) && b.owners == a.owners && b.identities == a.identities
    ensures OwnersOk(b)
  {
    forall o | o in b.owners ensures exists p :: Maps(b, p, o) {
      var p :| Maps(a, p, o);
      assert Maps(b, p, o);
    }
  }

  lemma GivenOwner(a: Tables, b: Tables, pair: Pair, newOwner: string, found: Found)
    requires OwnersOk(a) && (b.identities, found) == Locked(a.identities, pair, newOwner)
    requires b.owners == a.owners + (if found.created then {newOwner} else {})
    ensures found.ownerId in b.owners
  {
  }

  /** All the rows an exchange of this outcome adds. */
  ghost predicate Signs(
      a: Tables, b: Tables, jti: string, pair: Pair, newOwner: string, sessionId: string, outcome: Outcome)
  {
    match outcome
    case Replay => b == a
    case SignedIn(found, id) =>
      && id == sessionId && (b.identities, found) == Locked(a.identities, pair, newOwner)
      && b.owners == a.owners + (if found.created then {newOwner} else {})
      && b.consumed == a.consumed[jti := pair]
      && b.sessions == a.sessions[sessionId := Session(found.ownerId, jti)]
    case _ => false
  }

  /** One step of the locked store keeps owners and identities one to one. */
  lemma LockedKeepsOwners(a: Tables, b: Tables, pair: Pair, newOwner: string, found: Found)
    requires OwnersOk(a) && newOwner !in a.owners && (b.identities, found) == Locked(a.identities, pair, newOwner)
    requires b.owners == a.owners + (if found.created then {newOwner} else {})
    ensures OwnersOk(b) && Maps(b, pair, found.ownerId)
  {
    forall o | o in b.owners ensures exists p :: Maps(b, p, o) {
      if o in a.owners {
        var p :| Maps(a, p, o);
        assert Maps(b, p, o);
      } else {
        assert Maps(b, pair, o);
      }
    }
  }

  /** An exchange leaves owners and identities one to one, and the session with the owner of its pair. */
  lemma SignsKeepsOwners(
      a: Tables, b: Tables, jti: string, pair: Pair, newOwner: string, sessionId: string, outcome: Outcome)
    requires OwnersOk(a) && newOwner !in a.owners && Signs(a, b, jti, pair, newOwner, sessionId, outcome)
    ensures OwnersOk(b)
    ensures outcome.SignedIn? ==> sessionId in b.sessions && Maps(b, pair, b.sessions[sessionId].ownerId)
  {
    hide OwnersOk, Locked;
    if outcome.SignedIn? { LockedKeepsOwners(a, b, pair, newOwner, outcome.found); }
  }
}

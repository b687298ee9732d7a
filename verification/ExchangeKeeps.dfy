/** Every statement, commit and failure of the exchange keeps the invariant. */
module ExchangeKeeps {
  import opened Results
  import opened Owners
  import opened ExchangeMachine
  import opened ExchangeInvariant

  /** What a statement of call `c` owes: the new call fits the database and is apart from the others. */
  ghost predicate Owed(s: State, c: nat, b: Call)
  {
    && c in s.calls && b.job == s.calls[c].job && b.joined == s.calls[c].joined
    && CallOk(s.db, s.resolved, c, b)
    && (forall d :: d in s.calls && d != c ==> CallsApart(b, s.calls[d]) && CallsApart(s.calls[d], b))
  }

  lemma PutKeeps(s: State, c: nat, b: Call)
    requires Inv(s) && Owed(s, c, b)
    ensures Inv(Put(s, c, b))
  {
    hide CallOk, CallsApart, OwnersOk, SessionsOk, JtisOk, RecordOk;
    JtisKept(s.db, s.calls, s.calls[c := b]);
    RecordKept(s, c, b);
  }

  lemma JtisKept(db: Tables, a: map<nat, Call>, b: map<nat, Call>)
    requires JtisOk(db, a)
    requires forall c :: c in a ==> c in b && b[c].job == a[c].job && b[c].joined == a[c].joined
    ensures JtisOk(db, b)
  {
    forall jti | jti in db.consumed ensures Honoured(db, b, jti) {
      assert Honoured(db, a, jti);
      if c :| Unjoined(a, jti, c) { assert Unjoined(b, jti, c); }
    }
  }

  lemma RecordKept(s: State, c: nat, b: Call)
    requires c in s.calls && b.job == s.calls[c].job && RecordOk(s)
    ensures RecordOk(Put(s, c, b))
  {
    var t := Put(s, c, b);
    forall p, d {:trigger Creator(t, p, d)} ensures Creator(t, p, d) <==> Creator(s, p, d) { }
    forall p | p in t.db.identities ensures exists d :: Creator(t, p, d) {
      var d :| Creator(s, p, d);
      assert Creator(t, p, d);
    }
  }

  /** No key of `b` is outside `a` and `gain`. */
  predicate Within(b: Tables, a: Tables, gain: Tables)
  {
    b.owners <= a.owners + gain.owners && b.identities.Keys <= a.identities.Keys + gain.identities.Keys
    && b.consumed.Keys <= a.consumed.Keys + gain.consumed.Keys
    && b.sessions.Keys <= a.sessions.Keys + gain.sessions.Keys
  }

  /** The rows a call gains are free in the others, and no jti is shared. */
  lemma GainsApart(a: Call, b: Call, d: Call, gain: Tables)
    requires CallsApart(a, d) && Within(Rows(b), Rows(a), gain) && Apart(gain, Rows(d))
    requires Past(b) && Past(d) ==> b.job.jti != d.job.jti
    ensures CallsApart(b, d) && CallsApart(d, b)
  {
    hide Past;
  }

  // ----- statements, for the call alone -----

  lemma BeginOk(db: Tables, resolved: map<nat, Found>, c: nat, a: Call)
    requires CallOk(db, resolved, c, a) && a.tx.None? && !a.at.Done?
    ensures CallOk(db, resolved, c, a.(tx := Some(NOTHING)))
  {
    hide Apart, NoSession, Maps;
    assert Apart(db, NOTHING) by { NothingIsApart(db); }
  }

  lemma NothingIsApart(db: Tables)
    ensures Apart(db, NOTHING)
  {
  }

  lemma FailOk(db: Tables, resolved: map<nat, Found>, c: nat, a: Call)
    ensures CallOk(db, resolved, c, RolledBack(a))
  {
    NothingIsApart(db);
    hide Apart, NoSession, Maps;
  }

  lemma ConsumeOk(db: Tables, resolved: map<nat, Found>, c: nat, a: Call)
    requires CallOk(db, resolved, c, a) && a.tx.Some? && a.at.Consuming? && SessionsOk(db)
    ensures CallOk(db, resolved, c, OnConsume(db, a, a.tx.value))
  {
    var b := OnConsume(db, a, a.tx.value);
    hide Maps;
    if b.at.ReplayCommitting? {
      hide SessionsOk;
    } else {
      assert NoSession(db, a.job.jti) by {
        forall id | id in db.sessions ensures db.sessions[id].jti in db.consumed { assert SessionOk(db, id); }
      }
      hide NoSession, SessionsOk;
      assert b.tx.value == JtiRow(a);
    }
  }

  lemma InsertOwnerOk(db: Tables, resolved: map<nat, Found>, c: nat, a: Call, id: string)
    requires CallOk(db, resolved, c, a) && a.tx.Some? && a.at.OwnerInserting? && id !in Merge(db, a.tx.value).owners
    ensures CallOk(db, resolved, c, OnInsertOwner(a, a.tx.value, id))
  {
    var b := OnInsertOwner(a, a.tx.value, id);
    hide Maps, NoSession;
    assert b.tx.value == Merge(Carried(a), Tables({id}, map[], map[], map[]));
  }

  lemma InsertIdentityOk(db: Tables, resolved: map<nat, Found>, c: nat, a: Call)
    requires CallOk(db, resolved, c, a) && a.tx.Some? && a.at.IdentityInserting?
    ensures CallOk(db, resolved, c, OnInsertIdentity(db, a, a.tx.value, a.at.o))
  {
    var b := OnInsertIdentity(db, a, a.tx.value, a.at.o);
    hide Maps, NoSession;
    if b.at.OwnerSelecting? {
      assert b.tx.value == Merge(Carried(a), NewOwner(a.job.pair, a.at.o));
    }
  }

  lemma DeleteOwnerOk(db: Tables, resolved: map<nat, Found>, c: nat, a: Call)
    requires CallOk(db, resolved, c, a) && a.tx.Some? && a.at.OwnerDeleting?
    ensures CallOk(db, resolved, c, OnDeleteOwner(a, a.tx.value, a.at.o))
  {
    var b := OnDeleteOwner(a, a.tx.value, a.at.o);
    hide Maps, NoSession;
    assert b.tx.value == Carried(a);
  }

  /** After a unique conflict the row is there: the error of a missing mapping is never thrown. */
  lemma UpdateIdentityOk(db: Tables, resolved: map<nat, Found>, c: nat, a: Call)
    requires CallOk(db, resolved, c, a) && a.tx.Some? && a.at.IdentityUpdating?
    ensures var b := OnUpdateIdentity(a, Merge(db, a.tx.value)); b.at.OwnerUpdating? && CallOk(db, resolved, c, b)
  {
    hide NoSession, Apart;
  }

  /** The store call returns with an owner that its pair maps to; its rows stay as they are. */
  lemma ReturnOk(db: Tables, resolved: map<nat, Found>, c: nat, a: Call, f: Found)
    requires a.at.OwnerUpdating? || a.at.OwnerSelecting?
    requires a.tx.Some? && CallOk(db, resolved, c, a)
    requires Wrote(a.(at := Return(a, f))) == a.tx.value && Maps(Merge(db, a.tx.value), a.job.pair, f.ownerId)
    ensures CallOk(db, resolved, c, a.(at := Return(a, f)))
  {
    hide Wrote, Apart, Maps, Merge, NoSession;
  }

  lemma UpdatedWrote(a: Call)
    requires a.at.OwnerUpdating? && a.tx == Some(Wrote(a))
    ensures Wrote(a.(at := Return(a, Found(a.at.o, false)))) == a.tx.value
  {
    var b := a.(at := Return(a, Found(a.at.o, false)));
    assert Carried(b) == Carried(a) && OwnerRows(b, Found(a.at.o, false)) == NOTHING;
    assert Merge(Carried(a), NOTHING) == Carried(a);
    hide Carried, OwnerRows;
  }

  lemma UpdatedMaps(db: Tables, resolved: map<nat, Found>, c: nat, a: Call)
    requires a.at.OwnerUpdating? && a.tx.Some? && CallOk(db, resolved, c, a) && OwnersOk(db)
    ensures Maps(Merge(db, a.tx.value), a.job.pair, a.at.o) && a.at.o in db.owners && a.tx == Some(Wrote(a))
  {
    hide NoSession, OnRecord, Wrote;
  }

  lemma UpdateOwnerOk(db: Tables, resolved: map<nat, Found>, c: nat, a: Call)
    requires a.at.OwnerUpdating? && a.tx.Some? && CallOk(db, resolved, c, a) && OwnersOk(db)
    ensures var b := OnUpdateOwner(a, Merge(db, a.tx.value), a.at.o); !b.at.Done? && CallOk(db, resolved, c, b)
  {
    hide CallOk, OwnersOk, Maps, Wrote;
    UpdatedMaps(db, resolved, c, a);
    UpdatedWrote(a);
    ReturnOk(db, resolved, c, a, Found(a.at.o, false));
  }

  lemma SelectedWrote(a: Call)
    requires a.at.OwnerSelecting? && a.tx == Some(Wrote(a))
    ensures a.at.o in a.tx.value.owners && a.job.pair in a.tx.value.identities
    ensures a.tx.value.identities[a.job.pair] == a.at.o
    ensures Wrote(a.(at := Return(a, Found(a.at.o, true)))) == a.tx.value
  {
    var b := a.(at := Return(a, Found(a.at.o, true)));
    assert Carried(b) == Carried(a) && OwnerRows(b, Found(a.at.o, true)) == NewOwner(a.job.pair, a.at.o);
    assert Merge(NOTHING, NewOwner(a.job.pair, a.at.o)) == NewOwner(a.job.pair, a.at.o);
  }

  lemma SelectOwnerOk(db: Tables, resolved: map<nat, Found>, c: nat, a: Call)
    requires a.at.OwnerSelecting? && a.tx.Some? && CallOk(db, resolved, c, a)
    ensures var b := OnSelectOwner(a, Merge(db, a.tx.value), a.at.o); !b.at.Done? && CallOk(db, resolved, c, b)
  {
    assert a.tx == Some(Wrote(a)) by { hide Wrote, Apart, Knows, NoSession, OnRecord; }
    hide CallOk, Wrote;
    SelectedWrote(a);
    ReturnOk(db, resolved, c, a, Found(a.at.o, true));
  }

  lemma OwnerVisible(db: Tables, resolved: map<nat, Found>, c: nat, a: Call)
    requires CallOk(db, resolved, c, a) && a.tx.Some? && a.at.SessionInserting? && OwnersOk(db)
    ensures a.at.found.ownerId in Merge(db, a.tx.value).owners
  {
    hide NoSession, Apart, OnRecord;
  }

  lemma SessionApart(db: Tables, a: Call, w: Tables, f: Found, id: string)
    requires Apart(db, w) && id !in Merge(db, w).sessions
    ensures Apart(db, Merge(w, SessionRow(a, f, id)))
  {
  }

  lemma SessionMerges(db: Tables, a: Call, w: Tables, f: Found, id: string, pair: Pair, o: string)
    requires Maps(Merge(db, w), pair, o)
    ensures Maps(Merge(db, Merge(w, SessionRow(a, f, id))), pair, o)
  {
  }

  lemma SessionWrote(view: Tables, a: Call, id: string)
    requires a.tx == Some(Wrote(a)) && a.at.SessionInserting? && a.job.Exchange? && a.at.found.ownerId in view.owners
    ensures var b := OnInsertSession(a, view, a.tx.value, id, a.at.found);
      b == a.(tx := b.tx, at := SessionCommitting(a.at.found, id)) && b.tx == Some(Wrote(b))
      && Wrote(b) == Merge(a.tx.value, SessionRow(a, a.at.found, id))
  {
    var b := OnInsertSession(a, view, a.tx.value, id, a.at.found);
    var row := SessionRow(a, a.at.found, id);
    assert b.tx.value == Merge(a.tx.value, row);
    assert Carried(b) == Carried(a) && OwnerRows(b, a.at.found) == OwnerRows(a, a.at.found);
    assert SessionRow(b, a.at.found, id) == row;
    hide OwnerRows, Carried, Merge, SessionRow;
  }

  lemma SessionHolds(db: Tables, resolved: map<nat, Found>, c: nat, a: Call)
    requires a.at.SessionInserting? && a.tx.Some? && CallOk(db, resolved, c, a)
    ensures a.tx == Some(Wrote(a)) && a.job.Exchange? && Apart(db, a.tx.value)
    ensures Maps(Merge(db, a.tx.value), a.job.pair, a.at.found.ownerId)
  {
    hide Wrote, Apart, NoSession, OnRecord, Merge, Maps;
  }

  lemma SessionInsertedOk(db: Tables, resolved: map<nat, Found>, c: nat, a: Call, b: Call, id: string)
    requires a.at.SessionInserting? && a.tx.Some? && CallOk(db, resolved, c, a)
    requires b == a.(tx := b.tx, at := SessionCommitting(a.at.found, id)) && b.tx == Some(Wrote(b))
    requires Apart(db, Wrote(b))
    requires Maps(Merge(db, Wrote(b)), a.job.pair, a.at.found.ownerId)
    ensures CallOk(db, resolved, c, b)
  {
    hide Wrote, Apart, NoSession, Merge, Maps;
  }

  lemma InsertSessionOk(db: Tables, resolved: map<nat, Found>, c: nat, a: Call, id: string)
    requires a.at.SessionInserting? && a.tx.Some? && a.job.Exchange? && CallOk(db, resolved, c, a) && OwnersOk(db)
    requires id !in Merge(db, a.tx.value).sessions
    ensures var b := OnInsertSession(a, Merge(db, a.tx.value), a.tx.value, id, a.at.found);
      b.at.SessionCommitting? && CallOk(db, resolved, c, b)
  {
    var f, w := a.at.found, a.tx.value;
    OwnerVisible(db, resolved, c, a);
    SessionHolds(db, resolved, c, a);
    SessionWrote(Merge(db, w), a, id);
    SessionApart(db, a, w, f, id);
    SessionMerges(db, a, w, f, id, a.job.pair, f.ownerId);
    hide *;
    SessionInsertedOk(db, resolved, c, a, OnInsertSession(a, Merge(db, w), w, id, f), id);
  }

  // ----- statements, among the other calls -----

  /** A statement that inserts no more than rows under keys no other open transaction holds. */
  lemma GainOwes(s: State, c: nat, b: Call, gain: Tables)
    requires ApartInv(s) && c in s.calls && b.job == s.calls[c].job && b.joined == s.calls[c].joined
    requires CallOk(s.db, s.resolved, c, b)
    requires Past(b) ==> Past(s.calls[c])
    requires Within(Rows(b), Rows(s.calls[c]), gain)
    requires forall d :: d in s.calls && d != c ==> Apart(gain, Held(s, d))
    ensures Owed(s, c, b)
  {
    hide CallOk, Past, Within, Apart;
    forall d | d in s.calls && d != c ensures CallsApart(b, s.calls[d]) && CallsApart(s.calls[d], b) {
      assert CallsApart(s.calls[c], s.calls[d]) && Held(s, d) == Rows(s.calls[d]);
      hide ApartInv, Held, Rows;
      GainsApart(s.calls[c], b, s.calls[d], gain);
    }
  }

  /** A statement that inserts nothing. */
  lemma SmallerOwes(s: State, c: nat, b: Call)
    requires ApartInv(s) && c in s.calls && b.job == s.calls[c].job && b.joined == s.calls[c].joined
    requires CallOk(s.db, s.resolved, c, b)
    requires Past(b) ==> Past(s.calls[c])
    requires var a := s.calls[c];
      && Rows(b).owners <= Rows(a).owners && Rows(b).identities.Keys <= Rows(a).identities.Keys
      && Rows(b).consumed.Keys <= Rows(a).consumed.Keys && Rows(b).sessions.Keys <= Rows(a).sessions.Keys
    ensures Owed(s, c, b)
  {
    hide CallOk, Past, ApartInv;
    assert Within(Rows(b), Rows(s.calls[c]), NOTHING);
    hide Within;
    GainOwes(s, c, b, NOTHING);
  }

  /** A call past its consumption has the jti in its own rows or in the committed ones. */
  lemma PastHasJti(db: Tables, resolved: map<nat, Found>, d: nat, call: Call)
    requires CallOk(db, resolved, d, call) && Past(call)
    ensures call.job.jti in Rows(call).consumed || call.job.jti in db.consumed
  {
    hide Apart, NoSession, OnRecord, Maps;
  }

  lemma JtiFree(s: State, c: nat, d: nat)
    requires c in s.calls && d in s.calls && c != d && s.calls[c].job.Exchange? && FreeJti(s, c, s.calls[c].job.jti)
    requires s.calls[c].job.jti !in s.db.consumed && CallOk(s.db, s.resolved, d, s.calls[d])
    ensures Past(s.calls[d]) ==> s.calls[d].job.jti != s.calls[c].job.jti
    ensures Apart(JtiRow(s.calls[c]), Rows(s.calls[d]))
  {
    assert s.calls[c].job.jti !in Held(s, d).consumed;
    if Past(s.calls[d]) { PastHasJti(s.db, s.resolved, d, s.calls[d]); }
    hide CallOk, FreeJti, Past;
  }

  function Consumed(a: Call): Call
    requires a.job.Exchange?
  {
    a.(tx := Some(NOTHING.(consumed := map[a.job.jti := a.job.pair])),
       at := if a.joined then OwnerInserting else JtiCommitting)
  }

  lemma ConsumeShape(db: Tables, a: Call)
    requires a.tx == Some(NOTHING) && a.job.Exchange?
    ensures OnConsume(db, a, NOTHING) == if a.job.jti in db.consumed then a.(at := ReplayCommitting) else Consumed(a)
  {
    assert map[][a.job.jti := a.job.pair] == map[a.job.jti := a.job.pair];
  }

  lemma FirstConsumeOwes(s: State, c: nat)
    requires CallsInv(s) && ApartInv(s) && c in s.calls && s.calls[c].tx == Some(NOTHING) && s.calls[c].at.Consuming?
    requires s.calls[c].job.Exchange? && FreeJti(s, c, s.calls[c].job.jti) && s.calls[c].job.jti !in s.db.consumed
    requires CallOk(s.db, s.resolved, c, Consumed(s.calls[c]))
    ensures Owed(s, c, Consumed(s.calls[c]))
  {
    var a := s.calls[c];
    var b := Consumed(a);
    forall d | d in s.calls && d != c ensures CallsApart(b, s.calls[d]) && CallsApart(s.calls[d], b) {
      assert CallsApart(a, s.calls[d]) && CallOk(s.db, s.resolved, d, s.calls[d]);
      assert Within(Rows(b), Rows(a), JtiRow(a));
      hide CallOk, CallsInv, ApartInv, CallsApart, Past, Within, Apart, FreeJti;
      JtiFree(s, c, d);
      GainsApart(a, b, s.calls[d], JtiRow(a));
    }
    hide CallOk, CallsInv, ApartInv, CallsApart;
  }

  lemma ConsumeOwes(s: State, c: nat)
    requires Inv(s) && Enabled(s, Consume(c))
    ensures Owed(s, c, OnConsume(s.db, s.calls[c], s.calls[c].tx.value))
  {
    var a := s.calls[c];
    assert CallOk(s.db, s.resolved, c, a) && a.tx == Some(NOTHING);
    hide CallOk, CallsInv, ApartInv, OwnersOk, SessionsOk, RecordOk, JtisOk, Owed;
    ConsumeOk(s.db, s.resolved, c, a);
    ConsumeShape(s.db, a);
    hide OnConsume, FreeJti;
    if a.job.jti in s.db.consumed {
      SmallerOwes(s, c, a.(at := ReplayCommitting));
    } else {
      hide Consumed;
      FirstConsumeOwes(s, c);
    }
  }

  lemma InsertOwnerOwes(s: State, c: nat, id: string)
    requires Inv(s) && Enabled(s, InsertOwner(c, id))
    ensures Owed(s, c, OnInsertOwner(s.calls[c], s.calls[c].tx.value, id))
  {
    var a := s.calls[c];
    var b := OnInsertOwner(a, a.tx.value, id);
    var gain := Tables({id}, map[], map[], map[]);
    assert CallOk(s.db, s.resolved, c, a);
    InsertOwnerOk(s.db, s.resolved, c, a, id);
    hide CallOk, ApartInv, OwnersOk, SessionsOk, RecordOk, JtisOk, Owed, Merge, Held;
    assert Within(Rows(b), Rows(a), gain);
    hide Within;
    assert forall d :: d in s.calls && d != c ==> Apart(gain, Held(s, d));
    hide Apart, FreeOwner;
    GainOwes(s, c, b, gain);
  }

  lemma PairFree(s: State, c: nat, pair: Pair, o: string)
    requires FreePair(s, c, pair)
    ensures forall d :: d in s.calls && d != c ==> Apart(Tables({}, map[pair := o], map[], map[]), Held(s, d))
  {
    hide Held;
  }

  function Inserted(a: Call, w: Tables, o: string): Call
  {
    a.(tx := Some(w.(identities := w.identities[a.job.pair := o])), at := OwnerSelecting(o))
  }

  lemma InsertedGains(a: Call, w: Tables, o: string)
    requires a.tx == Some(w) && a.at == IdentityInserting(o)
    ensures Within(Rows(Inserted(a, w, o)), Rows(a), Tables({}, map[a.job.pair := o], map[], map[]))
    ensures Past(Inserted(a, w, o)) == Past(a)
  {
  }

  lemma InsertIdentityOwes(s: State, c: nat)
    requires Inv(s) && Enabled(s, InsertIdentity(c))
    ensures Owed(s, c, OnInsertIdentity(s.db, s.calls[c], s.calls[c].tx.value, s.calls[c].at.o))
  {
    var a := s.calls[c];
    var o, w := a.at.o, a.tx.value;
    assert CallOk(s.db, s.resolved, c, a);
    InsertIdentityOk(s.db, s.resolved, c, a);
    hide CallOk, ApartInv, OwnersOk, SessionsOk, RecordOk, JtisOk, Owed, Held, Apart;
    if OnInsertIdentity(s.db, a, w, o).at.OwnerDeleting? {
      SmallerOwes(s, c, a.(at := OwnerDeleting(o)));
    } else {
      assert OnInsertIdentity(s.db, a, w, o) == Inserted(a, w, o);
      PairFree(s, c, a.job.pair, o);
      InsertedGains(a, w, o);
      hide Enabled, FreePair, OnInsertIdentity, Within, Past;
      assert Inserted(a, w, o).job == a.job && Inserted(a, w, o).joined == a.joined;
      hide Inserted;
      GainOwes(s, c, Inserted(a, w, o), Tables({}, map[a.job.pair := o], map[], map[]));
    }
  }

  lemma SessionGainOwes(s: State, c: nat, a: Call, b: Call, id: string)
    requires ApartInv(s) && c in s.calls && s.calls[c] == a && a.at.SessionInserting? && a.job.Exchange? && a.tx.Some?
    requires b == a.(tx := Some(Merge(a.tx.value, SessionRow(a, a.at.found, id))),
                     at := SessionCommitting(a.at.found, id))
    requires FreeSession(s, c, id) && CallOk(s.db, s.resolved, c, b)
    ensures Owed(s, c, b)
  {
    SessionWithin(a, a.tx.value, a.at.found, id);
    SessionFree(s, c, id);
    assert Past(b) == Past(a);
    hide CallOk, ApartInv, Past, Apart, Within, Merge, SessionRow, FreeSession, Held;
    GainOwes(s, c, b, SessionRow(a, a.at.found, id));
  }

  lemma InsertSessionOwes(s: State, c: nat, a: Call, id: string)
    requires Open(s, c) && s.calls[c] == a && a.at.SessionInserting? && a.job.Exchange?
    requires FreeSession(s, c, id) && id !in View(s, c).sessions && Inv(s)
    ensures Owed(s, c, OnInsertSession(a, View(s, c), a.tx.value, id, a.at.found))
  {
    assert CallOk(s.db, s.resolved, c, a) && a.tx == Some(Wrote(a));
    hide CallOk, CallsInv, ApartInv, OwnersOk, SessionsOk, RecordOk, JtisOk, Owed, Merge, Wrote, OnInsertSession;
    hide SessionRow, FreeSession;
    OwnerVisible(s.db, s.resolved, c, a);
    SessionWrote(View(s, c), a, id);
    InsertSessionOk(s.db, s.resolved, c, a, id);
    SessionGainOwes(s, c, a, OnInsertSession(a, View(s, c), a.tx.value, id, a.at.found), id);
  }

  lemma SessionWithin(a: Call, w: Tables, f: Found, id: string)
    ensures Within(Merge(w, SessionRow(a, f, id)), w, SessionRow(a, f, id))
  {
  }

  lemma SessionFree(s: State, c: nat, id: string)
    requires c in s.calls && FreeSession(s, c, id) && s.calls[c].at.SessionInserting?
    ensures forall d :: d in s.calls && d != c ==> Apart(SessionRow(s.calls[c], s.calls[c].at.found, id), Held(s, d))
  {
    hide Held;
  }

  lemma BeginOwes(s: State, c: nat)
    requires Inv(s) && Enabled(s, Begin(c))
    ensures Owed(s, c, s.calls[c].(tx := Some(NOTHING)))
  {
    assert CallOk(s.db, s.resolved, c, s.calls[c]);
    BeginOk(s.db, s.resolved, c, s.calls[c]);
    hide CallOk, ApartInv, OwnersOk, SessionsOk, RecordOk, JtisOk, Owed;
    SmallerOwes(s, c, s.calls[c].(tx := Some(NOTHING)));
  }

  lemma DeleteOwnerOwes(s: State, c: nat, a: Call, o: string)
    requires Open(s, c) && s.calls[c] == a && a.at == OwnerDeleting(o) && Inv(s)
    ensures Owed(s, c, OnDeleteOwner(a, a.tx.value, o))
  {
    assert CallOk(s.db, s.resolved, c, a);
    DeleteOwnerOk(s.db, s.resolved, c, a);
    hide CallOk, ApartInv, OwnersOk, SessionsOk, RecordOk, JtisOk, Owed;
    SmallerOwes(s, c, OnDeleteOwner(a, a.tx.value, o));
  }

  lemma UpdateIdentityOwes(s: State, c: nat, a: Call)
    requires Open(s, c) && s.calls[c] == a && a.at.IdentityUpdating? && Inv(s)
    ensures Owed(s, c, OnUpdateIdentity(a, View(s, c)))
  {
    assert CallOk(s.db, s.resolved, c, a);
    UpdateIdentityOk(s.db, s.resolved, c, a);
    hide CallOk, ApartInv, OwnersOk, SessionsOk, RecordOk, JtisOk, Owed, Merge;
    SmallerOwes(s, c, OnUpdateIdentity(a, View(s, c)));
  }

  lemma UpdateOwnerOwes(s: State, c: nat, a: Call, o: string)
    requires Open(s, c) && s.calls[c] == a && a.at == OwnerUpdating(o) && Inv(s)
    ensures Owed(s, c, OnUpdateOwner(a, View(s, c), o))
  {
    assert CallOk(s.db, s.resolved, c, a);
    UpdateOwnerOk(s.db, s.resolved, c, a);
    hide CallOk, ApartInv, OwnersOk, SessionsOk, RecordOk, JtisOk, Owed, Merge;
    SmallerOwes(s, c, OnUpdateOwner(a, View(s, c), o));
  }

  lemma SelectOwnerOwes(s: State, c: nat, a: Call, o: string)
    requires Open(s, c) && s.calls[c] == a && a.at == OwnerSelecting(o) && Inv(s)
    ensures Owed(s, c, OnSelectOwner(a, View(s, c), o))
  {
    assert CallOk(s.db, s.resolved, c, a);
    SelectOwnerOk(s.db, s.resolved, c, a);
    hide CallOk, ApartInv, OwnersOk, SessionsOk, RecordOk, JtisOk, Owed, Merge;
    SmallerOwes(s, c, OnSelectOwner(a, View(s, c), o));
  }

  lemma FailOwes(s: State, c: nat)
    requires Inv(s) && c in s.calls
    ensures Owed(s, c, RolledBack(s.calls[c]))
  {
    FailOk(s.db, s.resolved, c, s.calls[c]);
    hide CallOk, ApartInv, OwnersOk, SessionsOk, RecordOk, JtisOk, Owed;
    SmallerOwes(s, c, RolledBack(s.calls[c]));
  }

  /** Statements and failures, that is every step but a submission and a COMMIT. */
  predicate IsStatement(l: Step)
  {
    !l.Submit? && !l.Commit?
  }

  lemma StatementKeeps(s: State, l: Step)
    requires Inv(s) && Enabled(s, l) && IsStatement(l)
    ensures Inv(Do(s, l)) && Do(s, l).db == s.db && Do(s, l).resolved == s.resolved
  {
    hide Inv, Owed, OnConsume, OnInsertOwner, OnInsertIdentity, OnDeleteOwner, OnUpdateIdentity, OnUpdateOwner;
    hide OnSelectOwner, OnInsertSession;
    hide OnCommit, RolledBack, View, FreeJti, FreePair, FreeOwner, FreeSession, FreeRow;
    var c := l.c;
    var a := s.calls[c];
    match l {
    case Begin(_) => BeginOwes(s, c);
    case Consume(_) => ConsumeOwes(s, c);
    case InsertOwner(_, id) => InsertOwnerOwes(s, c, id);
    case InsertIdentity(_) => InsertIdentityOwes(s, c);
    case DeleteOwner(_) => DeleteOwnerOwes(s, c, a, a.at.o);
    case UpdateIdentity(_) => UpdateIdentityOwes(s, c, a);
    case UpdateOwner(_) => UpdateOwnerOwes(s, c, a, a.at.o);
    case SelectOwner(_) => SelectOwnerOwes(s, c, a, a.at.o);
    case InsertSession(_, id) => InsertSessionOwes(s, c, a, id);
    case Fail(_) => FailOwes(s, c);
    }
    PutKeeps(s, c, Do(s, l).calls[c]);
  }
}

/**
 What an exchange, or a `resolveOrCreate` on its own, comes to when no other transaction is open: the rows
 it commits and what its caller is told, after whatever has happened before.
 */
module ExchangeAlone {
  import opened Results
  import opened Owners
  import opened ExchangeMachine
  import opened ExchangeInvariant
  import opened ExchangeKeeps
  import opened ExchangeCommits
  import opened ExchangeRuns
  import opened ExchangeAnswers

  // ----- one call, stage by stage -----

  ghost predicate Quiet(s: State)
  {
    forall d :: d in s.calls ==> s.calls[d].tx.None? && !s.calls[d].locked
  }

  /** As `s`, but for the committed rows, the record, and a new call. */
  function Stage(s: State, call: Call, db: Tables, resolved: map<nat, Found>): State
  {
    State(db, s.calls[s.next := call], s.next + 1, resolved)
  }

  ghost predicate Stands(ls: seq<Step>, s: State, call: Call, db: Tables, resolved: map<nat, Found>)
  {
    Legal(ls) && Quiet(s) && s.next !in s.calls && After(ls) == Stage(s, call, db, resolved)
  }

  lemma Submits(ls: seq<Step>, job: Job, joined: bool)
    requires Legal(ls) && Quiet(After(ls))
    ensures var s := After(ls);
      Stands(ls + [Submit(job, joined)], s,
             Call(job, joined, None, false, if job.Exchange? then Consuming else OwnerInserting), s.db, s.resolved)
  {
    hide Legal, After, CallOk;
    InvHolds(ls);
    assert CallsInv(After(ls));
    Extend(ls, Submit(job, joined));
  }

  /** Nobody holds anything that the call could wait for. */
  lemma WaitsForNobody(s: State, call: Call, db: Tables, resolved: map<nat, Found>)
    requires Quiet(s)
    ensures var b := Stage(s, call, db, resolved);
      (forall k :: FreeJti(b, s.next, k)) && (forall k :: FreePair(b, s.next, k))
      && (forall k :: FreeOwner(b, s.next, k)) && (forall k :: FreeSession(b, s.next, k))
      && forall k :: FreeRow(b, s.next, k)
  {
  }

  lemma States(ls: seq<Step>, s: State, call: Call, db: Tables, resolved: map<nat, Found>, l: Step, after: Call)
    requires Stands(ls, s, call, db, resolved) && IsStatement(l) && l.c == s.next
    requires Enabled(Stage(s, call, db, resolved), l)
    requires Do(Stage(s, call, db, resolved), l) == Put(Stage(s, call, db, resolved), s.next, after)
    ensures Stands(ls + [l], s, after, db, resolved)
  {
    hide Legal, After, Enabled, Do, Quiet;
    Extend(ls, l);
  }

  lemma Begins(ls: seq<Step>, s: State, call: Call, db: Tables, resolved: map<nat, Found>)
    requires Stands(ls, s, call, db, resolved) && call.tx.None? && !call.at.Done?
    ensures Stands(ls + [Begin(s.next)], s, call.(tx := Some(NOTHING)), db, resolved)
  {
    hide Stands;
    States(ls, s, call, db, resolved, Begin(s.next), call.(tx := Some(NOTHING)));
  }

  lemma Consumes(ls: seq<Step>, s: State, call: Call, db: Tables, resolved: map<nat, Found>)
    requires Stands(ls, s, call, db, resolved) && call.job.Exchange? && call.at.Consuming? && call.tx == Some(NOTHING)
    ensures var row := Tables({}, map[], map[call.job.jti := call.job.pair], map[]);
      Stands(ls + [Consume(s.next)], s,
        if call.job.jti in db.consumed then call.(at := ReplayCommitting)
        else call.(tx := Some(row), at := if call.joined then OwnerInserting else JtiCommitting),
        db, resolved)
  {
    WaitsForNobody(s, call, db, resolved);
    hide Stands, FreeJti, FreePair, FreeOwner, FreeSession, FreeRow;
    States(ls, s, call, db, resolved, Consume(s.next), OnConsume(db, call, NOTHING));
  }

  // ----- the owner -----

  function ResolveSteps(c: nat, o: string, known: bool): seq<Step>
  {
    [InsertOwner(c, o), InsertIdentity(c)]
    + if known then [DeleteOwner(c), UpdateIdentity(c), UpdateOwner(c)] else [SelectOwner(c)]
  }

  lemma Inserts(ls: seq<Step>, s: State, call: Call, db: Tables, resolved: map<nat, Found>, w: Tables, o: string)
    requires Stands(ls, s, call, db, resolved) && call.tx == Some(w) && call.at.OwnerInserting?
    requires w.owners == {} && w.identities == map[] && o !in db.owners
    ensures var owned := w.(owners := {o});
      Stands(ls + [InsertOwner(s.next, o)] + [InsertIdentity(s.next)], s,
        if call.job.pair in db.identities then call.(tx := Some(owned), at := OwnerDeleting(o))
        else call.(tx := Some(owned.(identities := map[call.job.pair := o])), at := OwnerSelecting(o)),
        db, resolved)
  {
    var owned := w.(owners := {o});
    var b := call.(tx := Some(owned), at := IdentityInserting(o));
    assert w.owners + {o} == {o};
    WaitsForNobody(s, call, db, resolved);
    WaitsForNobody(s, b, db, resolved);
    hide Stands, FreeJti, FreePair, FreeOwner, FreeSession, FreeRow;
    States(ls, s, call, db, resolved, InsertOwner(s.next, o), b);
    var l1 := ls + [InsertOwner(s.next, o)];
    States(l1, s, b, db, resolved, InsertIdentity(s.next), OnInsertIdentity(db, b, owned, o));
  }

  lemma Selects(ls: seq<Step>, s: State, call: Call, db: Tables, resolved: map<nat, Found>, w: Tables, o: string)
    requires Stands(ls, s, call, db, resolved) && call.tx == Some(w) && call.at == OwnerSelecting(o) && o in w.owners
    ensures Stands(ls + [SelectOwner(s.next)], s, call.(at := Return(call, Found(o, true))), db, resolved)
  {
    hide Stands, Return;
    States(ls, s, call, db, resolved, SelectOwner(s.next), call.(at := Return(call, Found(o, true))));
  }

  lemma Deletes(ls: seq<Step>, s: State, call: Call, db: Tables, resolved: map<nat, Found>, w: Tables, o: string)
    requires Stands(ls, s, call, db, resolved) && call.tx == Some(w.(owners := {o})) && call.at == OwnerDeleting(o)
    requires w.owners == {}
    ensures Stands(ls + [DeleteOwner(s.next)], s, call.(tx := Some(w), at := IdentityUpdating), db, resolved)
  {
    hide Stands;
    assert {o} - {o} == {};
    States(ls, s, call, db, resolved, DeleteOwner(s.next), call.(tx := Some(w), at := IdentityUpdating));
  }

  lemma ReadsIdentity(ls: seq<Step>, s: State, call: Call, db: Tables, resolved: map<nat, Found>, w: Tables, o: string)
    requires Stands(ls, s, call, db, resolved) && call.tx == Some(w) && call.at == IdentityUpdating
    requires w.identities == map[] && Maps(db, call.job.pair, o)
    ensures Stands(ls + [UpdateIdentity(s.next)], s, call.(locked := true, at := OwnerUpdating(o)), db, resolved)
  {
    WaitsForNobody(s, call, db, resolved);
    hide Stands, FreeJti, FreePair, FreeOwner, FreeSession, FreeRow;
    assert Maps(Merge(db, w), call.job.pair, o);
    hide Merge;
    States(ls, s, call, db, resolved, UpdateIdentity(s.next), call.(locked := true, at := OwnerUpdating(o)));
  }

  lemma ReadsOwner(ls: seq<Step>, s: State, call: Call, db: Tables, resolved: map<nat, Found>, w: Tables, o: string)
    requires Stands(ls, s, call, db, resolved) && call.tx == Some(w) && call.at == OwnerUpdating(o) && o in db.owners
    ensures Stands(ls + [UpdateOwner(s.next)], s, call.(at := Return(call, Found(o, false))), db, resolved)
  {
    hide Stands, Return;
    States(ls, s, call, db, resolved, UpdateOwner(s.next), call.(at := Return(call, Found(o, false))));
  }

  /** The row of an identity that was there already. */
  lemma Finds(ls: seq<Step>, s: State, call: Call, db: Tables, resolved: map<nat, Found>, w: Tables, o: string)
    requires Stands(ls, s, call, db, resolved) && call.tx == Some(w.(owners := {o})) && call.at == OwnerDeleting(o)
    requires w.owners == {} && w.identities == map[] && call.job.pair in db.identities
    requires db.identities[call.job.pair] in db.owners
    ensures var found := Found(db.identities[call.job.pair], false);
      Stands(ls + [DeleteOwner(s.next)] + [UpdateIdentity(s.next)] + [UpdateOwner(s.next)], s,
             call.(tx := Some(w), locked := true, at := Return(call, found)), db, resolved)
  {
    var owner := db.identities[call.job.pair];
    var a := call.(tx := Some(w), at := IdentityUpdating);
    var b := a.(locked := true, at := OwnerUpdating(owner));
    hide Stands;
    Deletes(ls, s, call, db, resolved, w, o);
    var l1 := ls + [DeleteOwner(s.next)];
    ReadsIdentity(l1, s, a, db, resolved, w, owner);
    ReadsOwner(l1 + [UpdateIdentity(s.next)], s, b, db, resolved, w, owner);
  }

  /** The owner of the pair, or the new one. */
  function OwnerOf(db: Tables, pair: Pair, o: string): Found
  {
    if pair in db.identities then Found(db.identities[pair], false) else Found(o, true)
  }

  lemma Resolves(ls: seq<Step>, s: State, call: Call, db: Tables, resolved: map<nat, Found>, w: Tables, o: string)
    requires Stands(ls, s, call, db, resolved) && call.tx == Some(w) && !call.locked && call.at.OwnerInserting?
    requires w.owners == {} && w.identities == map[] && o !in db.owners
    requires call.job.pair in db.identities ==> db.identities[call.job.pair] in db.owners
    ensures var known := call.job.pair in db.identities;
      Stands(ls + ResolveSteps(s.next, o, known), s,
        call.(tx := Some(if known then w else w.(owners := {o}, identities := map[call.job.pair := o])),
              locked := known, at := Return(call, OwnerOf(db, call.job.pair, o))),
        db, resolved)
  {
    var (c, owned) := (s.next, w.(owners := {o}));
    var l2 := ls + [InsertOwner(c, o)] + [InsertIdentity(c)];
    hide Stands;
    Inserts(ls, s, call, db, resolved, w, o);
    if call.job.pair in db.identities {
      Finds(l2, s, call.(tx := Some(owned), at := OwnerDeleting(o)), db, resolved, w, o);
      assert l2 + [DeleteOwner(c)] + [UpdateIdentity(c)] + [UpdateOwner(c)] == ls + ResolveSteps(c, o, true);
    } else {
      var rows := owned.(identities := map[call.job.pair := o]);
      Selects(l2, s, call.(tx := Some(rows), at := OwnerSelecting(o)), db, resolved, rows, o);
      assert l2 + [SelectOwner(c)] == ls + ResolveSteps(c, o, false);
    }
  }

  // ----- the session, and the commits -----

  lemma OpensSession(
      ls: seq<Step>, s: State, call: Call, db: Tables, resolved: map<nat, Found>, w: Tables, id: string, f: Found)
    requires Stands(ls, s, call, db, resolved) && call.tx == Some(w) && call.at == SessionInserting(f)
    requires call.job.Exchange? && w.sessions == map[] && id !in db.sessions && f.ownerId in db.owners + w.owners
    ensures var rows := w.(sessions := map[id := Session(f.ownerId, call.job.jti)]);
      Stands(ls + [InsertSession(s.next, id)], s, call.(tx := Some(rows), at := SessionCommitting(f, id)), db, resolved)
  {
    WaitsForNobody(s, call, db, resolved);
    hide Stands, FreeJti, FreePair, FreeOwner, FreeSession, FreeRow;
    var rows := w.(sessions := map[id := Session(f.ownerId, call.job.jti)]);
    States(ls, s, call, db, resolved, InsertSession(s.next, id),
           call.(tx := Some(rows), at := SessionCommitting(f, id)));
  }

  lemma Commits(ls: seq<Step>, s: State, call: Call, db: Tables, resolved: map<nat, Found>, w: Tables)
    requires Stands(ls, s, call, db, resolved) && call.tx == Some(w) && IsCommitting(call.at)
    ensures Stands(ls + [Commit(s.next, true)], s, call.(tx := None, locked := false, at := AfterCommit(call.at)),
              Merge(db, w),
              if FoundAt(call.at).Some? then resolved[s.next := FoundAt(call.at).value] else resolved)
  {
    hide Legal, After, Quiet, Merge, AfterCommit, FoundAt;
    Extend(ls, Commit(s.next, true));
  }

  // ----- what it comes to -----

  /** The rows after a `resolveOrCreate`: as they were if the pair had an owner, or with the new one. */
  function WithOwner(db: Tables, pair: Pair, o: string): Tables
  {
    if pair in db.identities then db
    else db.(owners := db.owners + {o}, identities := db.identities[pair := o])
  }

  /** The rows after a sign-in: the assertion is consumed, and its pair's owner has the session. */
  function SignedInRows(db: Tables, jti: string, pair: Pair, o: string, id: string): Tables
  {
    WithOwner(db, pair, o).(consumed := db.consumed[jti := pair],
                            sessions := db.sessions[id := Session(OwnerOf(db, pair, o).ownerId, jti)])
  }

  function JoinedSteps(c: nat, jti: string, pair: Pair, o: string, known: bool, id: string): seq<Step>
  {
    [Submit(Exchange(jti, pair), true), Begin(c), Consume(c)] + ResolveSteps(c, o, known)
    + [InsertSession(c, id), Commit(c, true)]
  }

  /** The rows of an exchange in one transaction. */
  function ExchangeRows(db: Tables, jti: string, pair: Pair, o: string): Tables
  {
    Tables(if pair in db.identities then {} else {o}, if pair in db.identities then map[] else map[pair := o],
           map[jti := pair], map[])
  }

  lemma RowsMerge(db: Tables, jti: string, pair: Pair, o: string, id: string)
    ensures var w := ExchangeRows(db, jti, pair, o);
      Merge(db, w.(sessions := map[id := Session(OwnerOf(db, pair, o).ownerId, jti)]))
        == SignedInRows(db, jti, pair, o, id)
  {
    var owner := OwnerOf(db, pair, o).ownerId;
    AddsOne(db.identities, ExchangeRows(db, jti, pair, o).identities);
    AddsOne(db.consumed, map[jti := pair]);
    AddsOne(db.sessions, map[id := Session(owner, jti)]);
    hide OwnerOf;
  }

  lemma OwnerIsThere(ls: seq<Step>, pair: Pair, o: string, jti: string)
    requires Legal(ls)
    ensures var db := After(ls).db;
      (pair in db.identities ==> db.identities[pair] in db.owners)
      && OwnerOf(db, pair, o).ownerId in db.owners + ExchangeRows(db, jti, pair, o).owners
  {
    OwnersAreIdentities(ls);
    hide Legal, After;
  }

  /** The transaction of a joined exchange up to its commit. */
  lemma JoinedWrites(ls: seq<Step>, jti: string, pair: Pair, o: string)
    requires Legal(ls) && Quiet(After(ls)) && jti !in After(ls).db.consumed && o !in After(ls).db.owners
    ensures var s := After(ls); var (c, known) := (s.next, pair in s.db.identities);
      Stands(ls + [Submit(Exchange(jti, pair), true)] + [Begin(c)] + [Consume(c)] + ResolveSteps(c, o, known), s,
             Call(Exchange(jti, pair), true, Some(ExchangeRows(s.db, jti, pair, o)), known,
                  SessionInserting(OwnerOf(s.db, pair, o))), s.db, s.resolved)
  {
    hide Legal, After, Stands, Quiet, ResolveSteps;
    var s := After(ls);
    var (c, job, db) := (s.next, Exchange(jti, pair), s.db);
    var row := Tables({}, map[], map[jti := pair], map[]);
    OwnerIsThere(ls, pair, o, jti);
    Submits(ls, job, true);
    var l1 := ls + [Submit(job, true)];
    Begins(l1, s, Call(job, true, None, false, Consuming), db, s.resolved);
    var l2 := l1 + [Begin(c)];
    Consumes(l2, s, Call(job, true, Some(NOTHING), false, Consuming), db, s.resolved);
    Resolves(l2 + [Consume(c)], s, Call(job, true, Some(row), false, OwnerInserting), db, s.resolved, row, o);
  }

  /** An exchange of a fresh assertion in one transaction signs in the owner of its pair, new or not. */
  lemma JoinedSignsIn(ls: seq<Step>, jti: string, pair: Pair, o: string, id: string)
    requires Legal(ls) && Quiet(After(ls)) && jti !in After(ls).db.consumed
    requires o !in After(ls).db.owners && id !in After(ls).db.sessions
    ensures var s := After(ls); var found := OwnerOf(s.db, pair, o);
      Stands(ls + JoinedSteps(s.next, jti, pair, o, pair in s.db.identities, id), s,
             Call(Exchange(jti, pair), true, None, false, Done(SignedIn(found, id))),
             SignedInRows(s.db, jti, pair, o, id), s.resolved[s.next := found])
  {
    hide Legal, After, Stands, Quiet, Merge, ResolveSteps, SignedInRows;
    var s := After(ls);
    var (c, job, db) := (s.next, Exchange(jti, pair), s.db);
    var (known, found, w) := (pair in db.identities, OwnerOf(db, pair, o), ExchangeRows(db, jti, pair, o));
    OwnerIsThere(ls, pair, o, jti);
    JoinedWrites(ls, jti, pair, o);
    RowsMerge(db, jti, pair, o, id);
    var l4 := ls + [Submit(job, true)] + [Begin(c)] + [Consume(c)] + ResolveSteps(c, o, known);
    assert w.sessions == map[];
    hide OwnerOf, ExchangeRows;
    OpensSession(l4, s, Call(job, true, Some(w), known, SessionInserting(found)), db, s.resolved, w, id, found);
    var rows := w.(sessions := map[id := Session(found.ownerId, jti)]);
    var l5 := l4 + [InsertSession(c, id)];
    Commits(l5, s, Call(job, true, Some(rows), known, SessionCommitting(found, id)), db, s.resolved, rows);
    assert l5 + [Commit(c, true)] == ls + JoinedSteps(c, jti, pair, o, known, id);
  }

  /** Two store calls in transactions of their own are two commits, and the third is the session's. */
  function UnjoinedSteps(c: nat, jti: string, pair: Pair, o: string, known: bool, id: string): seq<Step>
  {
    [Submit(Exchange(jti, pair), false), Begin(c), Consume(c), Commit(c, true), Begin(c)] + ResolveSteps(c, o, known)
    + [Commit(c, true), Begin(c), InsertSession(c, id), Commit(c, true)]
  }

  /** The first store call of an exchange in no transaction. */
  lemma UnjoinedConsumes(ls: seq<Step>, jti: string, pair: Pair)
    requires Legal(ls) && Quiet(After(ls)) && jti !in After(ls).db.consumed
    ensures var s := After(ls); var c := s.next;
      Stands(ls + [Submit(Exchange(jti, pair), false)] + [Begin(c)] + [Consume(c)] + [Commit(c, true)], s,
             Call(Exchange(jti, pair), false, None, false, OwnerInserting),
             s.db.(consumed := s.db.consumed[jti := pair]), s.resolved)
  {
    hide Legal, After, Stands, Quiet;
    var s := After(ls);
    var (c, job, db) := (s.next, Exchange(jti, pair), s.db);
    var row := Tables({}, map[], map[jti := pair], map[]);
    Submits(ls, job, false);
    var l1 := ls + [Submit(job, false)];
    Begins(l1, s, Call(job, false, None, false, Consuming), db, s.resolved);
    var l2 := l1 + [Begin(c)];
    Consumes(l2, s, Call(job, false, Some(NOTHING), false, Consuming), db, s.resolved);
    Commits(l2 + [Consume(c)], s, Call(job, false, Some(row), false, JtiCommitting), db, s.resolved, row);
    AddsOne(db.consumed, map[jti := pair]);
    AddsOne(db.identities, map[]);
    AddsOne(db.sessions, map[]);
    assert Merge(db, row) == db.(consumed := db.consumed[jti := pair]);
  }

  lemma OwnerMerges(db: Tables, pair: Pair, o: string)
    ensures Merge(db, OwnerTables(db, pair, o)) == WithOwner(db, pair, o)
  {
    AddsOne(db.identities, OwnerTables(db, pair, o).identities);
    AddsOne(db.consumed, map[]);
    AddsOne(db.sessions, map[]);
  }

  /** The rows of a `resolveOrCreate` on its own. */
  function OwnerTables(db: Tables, pair: Pair, o: string): Tables
  {
    if pair in db.identities then NOTHING else Tables({o}, map[pair := o], map[], map[])
  }

  /** A `resolveOrCreate` in a transaction of its own, from wherever its call has come. */
  lemma ResolvesAndCommits(
      ls: seq<Step>, s: State, call: Call, db: Tables, resolved: map<nat, Found>, o: string)
    requires Stands(ls, s, call, db, resolved) && call.tx == None && !call.locked && call.at.OwnerInserting?
    requires (call.job.Exchange? ==> !call.joined) && o !in db.owners
    requires call.job.pair in db.identities ==> db.identities[call.job.pair] in db.owners
    ensures var (c, known, found) := (s.next, call.job.pair in db.identities, OwnerOf(db, call.job.pair, o));
      Stands(ls + [Begin(c)] + ResolveSteps(c, o, known) + [Commit(c, true)], s,
             call.(at := if call.job.Resolve? then Done(Resolved(found)) else SessionInserting(found)),
             WithOwner(db, call.job.pair, o), resolved[c := found])
  {
    hide Stands, ResolveSteps;
    var (c, known, found) := (s.next, call.job.pair in db.identities, OwnerOf(db, call.job.pair, o));
    var w := OwnerTables(db, call.job.pair, o);
    OwnerMerges(db, call.job.pair, o);
    Begins(ls, s, call, db, resolved);
    var l1 := ls + [Begin(c)];
    Resolves(l1, s, call.(tx := Some(NOTHING)), db, resolved, NOTHING, o);
    hide Merge, WithOwner, OwnerOf;
    Commits(l1 + ResolveSteps(c, o, known), s, call.(tx := Some(w), locked := known, at := Return(call, found)), db,
            resolved, w);
  }

  lemma RowsOneByOne(db: Tables, jti: string, pair: Pair, o: string, id: string)
    ensures var one := db.(consumed := db.consumed[jti := pair]);
      var row := Tables({}, map[], map[], map[id := Session(OwnerOf(db, pair, o).ownerId, jti)]);
      Merge(WithOwner(one, pair, o), row) == SignedInRows(db, jti, pair, o, id)
      && OwnerOf(one, pair, o) == OwnerOf(db, pair, o)
  {
    var t := WithOwner(db.(consumed := db.consumed[jti := pair]), pair, o);
    AddsOne(t.identities, map[]);
    AddsOne(t.consumed, map[]);
    AddsOne(t.sessions, map[id := Session(OwnerOf(db, pair, o).ownerId, jti)]);
  }

  /** In no transaction it comes to the same, if nothing fails in between. */
  lemma UnjoinedSignsIn(ls: seq<Step>, jti: string, pair: Pair, o: string, id: string)
    requires Legal(ls) && Quiet(After(ls)) && jti !in After(ls).db.consumed
    requires o !in After(ls).db.owners && id !in After(ls).db.sessions
    ensures var s := After(ls); var found := OwnerOf(s.db, pair, o);
      Stands(ls + UnjoinedSteps(s.next, jti, pair, o, pair in s.db.identities, id), s,
             Call(Exchange(jti, pair), false, None, false, Done(SignedIn(found, id))),
             SignedInRows(s.db, jti, pair, o, id), s.resolved[s.next := found])
  {
    hide Legal, After, Stands, Quiet, ResolveSteps;
    var s := After(ls);
    var (c, job, db) := (s.next, Exchange(jti, pair), s.db);
    var one := db.(consumed := db.consumed[jti := pair]);
    var (known, found, two) := (pair in db.identities, OwnerOf(db, pair, o), WithOwner(one, pair, o));
    OwnerIsThere(ls, pair, o, jti);
    RowsOneByOne(db, jti, pair, o, id);
    assert found.ownerId in two.owners && id !in two.sessions;
    UnjoinedConsumes(ls, jti, pair);
    var l1 := ls + [Submit(job, false)] + [Begin(c)] + [Consume(c)] + [Commit(c, true)];
    ResolvesAndCommits(l1, s, Call(job, false, None, false, OwnerInserting), one, s.resolved, o);
    hide Merge, WithOwner, OwnerOf, SignedInRows;
    var l2 := l1 + [Begin(c)] + ResolveSteps(c, o, known) + [Commit(c, true)];
    var resolved := s.resolved[c := found];
    var a := Call(job, false, None, false, SessionInserting(found));
    Begins(l2, s, a, two, resolved);
    var l3 := l2 + [Begin(c)];
    OpensSession(l3, s, a.(tx := Some(NOTHING)), two, resolved, NOTHING, id, found);
    var row := Tables({}, map[], map[], map[id := Session(found.ownerId, jti)]);
    Commits(l3 + [InsertSession(c, id)], s, Call(job, false, Some(row), false, SessionCommitting(found, id)), two,
            resolved, row);
    assert resolved[c := found] == resolved;
    assert l3 + [InsertSession(c, id)] + [Commit(c, true)] == ls + UnjoinedSteps(c, jti, pair, o, known, id);
  }

  /** A spent assertion is refused as a replay, and nothing is written. */
  lemma SpentIsReplay(ls: seq<Step>, jti: string, pair: Pair, joined: bool)
    requires Legal(ls) && Quiet(After(ls)) && jti in After(ls).db.consumed
    ensures var s := After(ls); var c := s.next;
      Stands(ls + [Submit(Exchange(jti, pair), joined)] + [Begin(c)] + [Consume(c)] + [Commit(c, true)], s,
             Call(Exchange(jti, pair), joined, None, false, Done(Replay)), s.db, s.resolved)
  {
    hide Legal, After, Stands, Quiet;
    var s := After(ls);
    var (c, job) := (s.next, Exchange(jti, pair));
    Submits(ls, job, joined);
    var l1 := ls + [Submit(job, joined)];
    Begins(l1, s, Call(job, joined, None, false, Consuming), s.db, s.resolved);
    var l2 := l1 + [Begin(c)];
    Consumes(l2, s, Call(job, joined, Some(NOTHING), false, Consuming), s.db, s.resolved);
    Commits(l2 + [Consume(c)], s, Call(job, joined, Some(NOTHING), false, ReplayCommitting), s.db, s.resolved, NOTHING);
    assert Merge(s.db, NOTHING) == s.db;
  }

  /** A `resolveOrCreate` on its own gives the owner of the pair, or makes one. */
  lemma ResolveAlone(ls: seq<Step>, pair: Pair, joined: bool, o: string)
    requires Legal(ls) && Quiet(After(ls)) && o !in After(ls).db.owners
    ensures var s := After(ls); var (c, found) := (s.next, OwnerOf(s.db, pair, o));
      Stands(ls + [Submit(Resolve(pair), joined)] + [Begin(c)] + ResolveSteps(c, o, pair in s.db.identities)
                + [Commit(c, true)],
             s, Call(Resolve(pair), joined, None, false, Done(Resolved(found))), WithOwner(s.db, pair, o),
             s.resolved[c := found])
  {
    hide Legal, After, Stands, Quiet, ResolveSteps, WithOwner, OwnerOf;
    var s := After(ls);
    OwnerIsThere(ls, pair, o, "");
    Submits(ls, Resolve(pair), joined);
    var call := Call(Resolve(pair), joined, None, false, OwnerInserting);
    ResolvesAndCommits(ls + [Submit(Resolve(pair), joined)], s, call, s.db, s.resolved, o);
  }
}

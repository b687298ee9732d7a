/** What holds in every run of the exchange, however its calls interleave and wherever they fail. */
module ExchangeRuns {
  import opened Results
  import opened Owners
  import opened ExchangeMachine
  import opened ExchangeInvariant
  import opened ExchangeKeeps
  import opened ExchangeCommits

  lemma {:induction false} InvHolds(ls: seq<Step>)
    requires Legal(ls)
    ensures Inv(After(ls))
  {
    hide Enabled, Inv, Do;
    if ls == [] {
      StartInv();
    } else {
      InvHolds(ls[..|ls| - 1]);
      StepKeeps(After(ls[..|ls| - 1]), ls[|ls| - 1]);
    }
  }

  lemma StartInv()
    ensures Inv(START)
  {
    hide CallOk, CallsApart;
  }

  lemma {:induction false} PrefixLegal(ls: seq<Step>, k: nat)
    requires Legal(ls) && k <= |ls|
    ensures Legal(ls[..k])
    decreases |ls|
  {
    hide Enabled, After;
    if k < |ls| {
      PrefixLegal(ls[..|ls| - 1], k);
      assert ls[..|ls| - 1][..k] == ls[..k];
    } else {
      assert ls[..k] == ls;
    }
  }

  // ----- consumed once, one session -----

  /**
   An assertion whose exchanges all ran in one transaction is consumed exactly when one session was
   committed for it; and no assertion at all ever has two sessions.
   */
  lemma ConsumedIffSession(ls: seq<Step>, jti: string)
    requires Legal(ls)
    ensures var db := After(ls).db;
      && (forall a, b :: HasSession(db, jti, a) && HasSession(db, jti, b) ==> a == b)
      && ((exists id :: HasSession(db, jti, id)) ==> jti in db.consumed)
      && ((forall c :: !Unjoined(After(ls).calls, jti, c)) ==>
        (jti in db.consumed <==> exists id :: HasSession(db, jti, id)))
  {
    InvHolds(ls);
    var s := After(ls);
    assert SessionsOk(s.db) && JtisOk(s.db, s.calls);
    assert jti in s.db.consumed ==> Honoured(s.db, s.calls, jti);
    forall id | HasSession(s.db, jti, id) ensures jti in s.db.consumed { assert SessionOk(s.db, id); }
    hide Inv, After, Legal;
  }

  /** A session is its assertion's owner's. */
  lemma SessionOwner(ls: seq<Step>, id: string)
    requires Legal(ls) && id in After(ls).db.sessions
    ensures var db := After(ls).db; var ses := db.sessions[id];
      ses.jti in db.consumed && db.consumed[ses.jti] in db.identities
      && ses.ownerId == db.identities[db.consumed[ses.jti]] && ses.ownerId in db.owners
  {
    InvHolds(ls);
    var s := After(ls);
    assert SessionOk(s.db, id) && OwnersOk(s.db);
    hide After, Legal, CallsInv, ApartInv, RecordOk, JtisOk;
  }

  /** An exchange that is not put in one transaction, and fails after its first store call. */
  function LostRun(jti: string, pair: Pair): seq<Step>
  {
    [Submit(Exchange(jti, pair), false), Begin(0), Consume(0), Commit(0, true), Fail(0)]
  }

  function LostCall(jti: string, pair: Pair, tx: Option<Tables>, at: Place): Call
  {
    Call(Exchange(jti, pair), false, tx, false, at)
  }

  /** The state before each step of that run, and after the last. */
  function LostState(jti: string, pair: Pair, i: nat): State
  {
    var row := Tables({}, map[], map[jti := pair], map[]);
    if i == 0 then START
    else if i == 1 then State(NOTHING, map[0 := LostCall(jti, pair, None, Consuming)], 1, map[])
    else if i == 2 then State(NOTHING, map[0 := LostCall(jti, pair, Some(NOTHING), Consuming)], 1, map[])
    else if i == 3 then State(NOTHING, map[0 := LostCall(jti, pair, Some(row), JtiCommitting)], 1, map[])
    else if i == 4 then State(row, map[0 := LostCall(jti, pair, None, OwnerInserting)], 1, map[])
    else State(row, map[0 := LostCall(jti, pair, None, Done(Failed))], 1, map[])
  }

  lemma LostStep(jti: string, pair: Pair, i: nat)
    requires i < 5
    ensures var s := LostState(jti, pair, i); var l := LostRun(jti, pair)[i];
      Enabled(s, l) && Do(s, l) == LostState(jti, pair, i + 1)
  {
    var s := LostState(jti, pair, i);
    var l := LostRun(jti, pair)[i];
    if i == 3 {
      assert Merge(NOTHING, Tables({}, map[], map[jti := pair], map[])) == Tables({}, map[], map[jti := pair], map[]);
    }
    assert Do(s, l).calls == LostState(jti, pair, i + 1).calls;
  }

  lemma {:induction false} LostUpto(jti: string, pair: Pair, i: nat)
    requires i <= 5
    ensures Legal(LostRun(jti, pair)[..i]) && After(LostRun(jti, pair)[..i]) == LostState(jti, pair, i)
  {
    var ls := LostRun(jti, pair);
    if i > 0 {
      LostUpto(jti, pair, i - 1);
      LostStep(jti, pair, i - 1);
      hide LostState, LostRun, Enabled, Do;
      assert ls[..i] == ls[..i - 1] + [ls[i - 1]];
      Extend(ls[..i - 1], ls[i - 1]);
    }
  }

  /** Without one transaction around the writes, a failure after the first spends an assertion for nothing. */
  lemma UnjoinedSpendsForNothing(jti: string, pair: Pair)
    ensures var ls := LostRun(jti, pair);
      Legal(ls) && jti in After(ls).db.consumed && After(ls).db.sessions == map[]
      && After(ls).calls[0].at == Done(Failed)
  {
    LostUpto(jti, pair, 5);
    assert LostRun(jti, pair)[..5] == LostRun(jti, pair);
  }

  lemma Extend(ls: seq<Step>, l: Step)
    ensures Legal(ls) && Enabled(After(ls), l) ==> Legal(ls + [l]) && After(ls + [l]) == Do(After(ls), l)
  {
    hide Enabled, Do;
    assert (ls + [l])[..|ls + [l]| - 1] == ls;
  }

  // ----- owners -----

  /** Owners and identities are one to one: different pairs have different owners and no owner is without its pair. */
  lemma OwnersAreIdentities(ls: seq<Step>)
    requires Legal(ls)
    ensures var db := After(ls).db;
      && (forall p :: p in db.identities ==> db.identities[p] in db.owners)
      && (forall o :: o in db.owners ==> exists p :: Maps(db, p, o))
      && (forall p, q :: p in db.identities && q in db.identities && db.identities[p] == db.identities[q] ==> p == q)
  {
    InvHolds(ls);
  }

  /** A pair that has an owner keeps it. */
  lemma {:induction false} OwnerIsStable(ls: seq<Step>, k: nat, pair: Pair)
    requires Legal(ls) && k <= |ls| && Legal(ls[..k]) && pair in After(ls[..k]).db.identities
    ensures Maps(After(ls).db, pair, After(ls[..k]).db.identities[pair])
    decreases |ls|
  {
    hide Enabled, Inv, Do;
    if k < |ls| {
      var init := ls[..|ls| - 1];
      assert init[..k] == ls[..k];
      OwnerIsStable(init, k, pair);
      StepIsLocked(init, ls[|ls| - 1]);
      assert init + [ls[|ls| - 1]] == ls;
    } else {
      assert ls[..k] == ls;
    }
  }

  /**
   Refinement: what the committed owners do is what the locked store does, one whole `resolveOrCreate`
   at a time, with the same answers; every other step leaves them alone.
   */
  lemma StepIsLocked(ls: seq<Step>, l: Step)
    requires Legal(ls) && Enabled(After(ls), l)
    ensures var s := After(ls); var t := Do(s, l);
      if l.Commit? && FoundAt(s.calls[l.c].at).Some? && l.c !in s.resolved then
        var f := FoundAt(s.calls[l.c].at).value;
        Locked(s.db.identities, s.calls[l.c].job.pair, f.ownerId) == (t.db.identities, f)
        && t.resolved == s.resolved[l.c := f]
      else t.db.identities == s.db.identities && t.resolved == s.resolved
  {
    InvHolds(ls);
    var s := After(ls);
    hide After, Legal;
    if l.Commit? {
      CommittedIsLocked(s, l.c, l.seen);
    } else if l.Submit? {
      hide Inv;
    } else {
      hide Locked;
      StatementKeeps(s, l);
    }
  }

  lemma CommittedIsLocked(s: State, c: nat, seen: bool)
    requires CallsInv(s) && c in s.calls && s.calls[c].tx.Some? && IsCommitting(s.calls[c].at)
    ensures var t := OnCommit(s, c, s.calls[c], seen); var f := FoundAt(s.calls[c].at);
      if f.Some? && c !in s.resolved then
        Locked(s.db.identities, s.calls[c].job.pair, f.value.ownerId) == (t.db.identities, f.value)
        && t.resolved == s.resolved[c := f.value]
      else t.db.identities == s.db.identities && t.resolved == s.resolved
  {
    assert CallOk(s.db, s.resolved, c, s.calls[c]);
    CommitIsLocked(s.db, s.resolved, c, s.calls[c]);
    CommitShape(s, c, seen);
    hide CallOk, Locked, OnCommit;
  }

  /** Of the calls that resolved a pair exactly one created its owner, and all of them were given that owner. */
  lemma CreatedOnce(ls: seq<Step>, pair: Pair)
    requires Legal(ls)
    ensures var s := After(ls);
      && (pair in s.db.identities ==> exists c :: Creator(s, pair, c))
      && (forall c, d :: Creator(s, pair, c) && Creator(s, pair, d) ==> c == d)
      && (forall c :: c in s.resolved && c in s.calls && s.calls[c].job.pair == pair ==>
        Maps(s.db, pair, s.resolved[c].ownerId))
  {
    InvHolds(ls);
    assert RecordOk(After(ls));
    hide Inv, After, Legal;
  }

  // ----- the rows a statement counts on -----

  lemma RowsThere(s: State, l: Step)
    requires Enabled(s, l) && IsStatement(l) && !l.Fail? && CallOk(s.db, s.resolved, l.c, s.calls[l.c])
    requires OwnersOk(s.db)
    ensures !Do(s, l).calls[l.c].at.Done?
  {
    var c := l.c;
    var a := s.calls[c];
    hide CallOk, OwnersOk, FreeJti, FreePair, FreeOwner, FreeSession, FreeRow;
    match l
    case UpdateIdentity(_) => UpdateIdentityOk(s.db, s.resolved, c, a);
    case UpdateOwner(_) => UpdateOwnerOk(s.db, s.resolved, c, a);
    case SelectOwner(_) => SelectOwnerOk(s.db, s.resolved, c, a);
    case InsertSession(_, id) => InsertSessionOk(s.db, s.resolved, c, a, id);
    case _ =>
  }

  /** The errors for missing rows are never thrown: only a failure from outside ends a call without an outcome. */
  lemma RowsAreThere(ls: seq<Step>, l: Step)
    requires Legal(ls) && Enabled(After(ls), l) && IsStatement(l) && !l.Fail?
    ensures !Do(After(ls), l).calls[l.c].at.Done?
  {
    InvHolds(ls);
    CallThere(After(ls), l);
    hide Enabled, Do, Inv, CallOk;
    RowsThere(After(ls), l);
  }

  lemma CallThere(s: State, l: Step)
    requires Inv(s) && Enabled(s, l) && IsStatement(l)
    ensures l.c in s.calls && CallOk(s.db, s.resolved, l.c, s.calls[l.c]) && OwnersOk(s.db)
  {
    hide CallOk, OwnersOk, FreeJti, FreePair, FreeOwner, FreeSession, FreeRow;
  }

  // ----- what callers are told -----

  /** An outcome speaks of committed rows. */
  predicate Told(db: Tables, call: Call)
  {
    match call.at
    case ReplayCommitting => call.job.Exchange? ==> call.job.jti in db.consumed
    case Done(Replay) => call.job.Exchange? ==> call.job.jti in db.consumed
    case Done(SignedIn(f, id)) =>
      call.job.Exchange? && id in db.sessions && db.sessions[id] == Session(f.ownerId, call.job.jti)
      && Maps(db, call.job.pair, f.ownerId)
    case Done(Resolved(f)) => Maps(db, call.job.pair, f.ownerId)
    case _ => true
  }

  lemma ToldGrows(db: Tables, w: Tables, call: Call)
    requires Apart(db, w) && Told(db, call)
    ensures Told(Merge(db, w), call)
  {
  }

  lemma ToldAtCommit(db: Tables, resolved: map<nat, Found>, c: nat, a: Call, seen: bool)
    requires CallOk(db, resolved, c, a) && a.tx.Some? && IsCommitting(a.at) && Told(db, a)
    ensures Told(Merge(db, a.tx.value), Committed(a, seen)) && Apart(db, a.tx.value)
  {
    CommitIsReady(db, resolved, c, a);
    CommittedSessions(resolved, c, a);
    if a.at.SessionCommitting? { SessionFits(db, resolved, c, a); }
    hide NoSession, Wrote, OnRecord;
  }

  lemma StatementShape(s: State, l: Step)
    requires Enabled(s, l) && IsStatement(l)
    ensures l.c in s.calls && l.c in Do(s, l).calls && Do(s, l).calls == s.calls[l.c := Do(s, l).calls[l.c]]
    ensures Do(s, l).calls[l.c].at.ReplayCommitting? ==> l.Consume? || (l.Begin? && s.calls[l.c].at.ReplayCommitting?)
    ensures l.Fail? ==> Do(s, l).calls[l.c].at == Done(Failed)
  {
    hide FreeJti, FreePair, FreeOwner, FreeSession, FreeRow, Merge;
  }

  lemma ToldByConsume(s: State, c: nat)
    requires Enabled(s, Consume(c)) && CallOk(s.db, s.resolved, c, s.calls[c])
    ensures Told(s.db, Do(s, Consume(c)).calls[c])
  {
    NothingYet(s.db, s.resolved, c, s.calls[c]);
    hide CallOk, FreeJti;
  }

  lemma ToldByStatement(s: State, l: Step)
    requires Inv(s) && Enabled(s, l) && IsStatement(l)
    ensures l.c in s.calls && Do(s, l).calls == s.calls[l.c := Do(s, l).calls[l.c]] && Told(s.db, Do(s, l).calls[l.c])
  {
    CallThere(s, l);
    StatementShape(s, l);
    if l.Begin? { NotBetween(s.db, s.resolved, l.c, s.calls[l.c]); }
    if l.Consume? { ToldByConsume(s, l.c); }
    hide CallOk, Inv, Do;
    if !l.Fail? { RowsThere(s, l); }
  }

  lemma NotBetween(db: Tables, resolved: map<nat, Found>, c: nat, a: Call)
    requires CallOk(db, resolved, c, a) && a.tx.None? && !a.at.Done?
    ensures !a.at.ReplayCommitting?
  {
    hide Apart, Knows, NoSession, OnRecord;
  }

  lemma NothingYet(db: Tables, resolved: map<nat, Found>, c: nat, a: Call)
    requires CallOk(db, resolved, c, a) && a.tx.Some? && a.at.Consuming?
    ensures a.tx.value.consumed == map[]
  {
    hide Apart, Knows, NoSession, OnRecord;
  }

  /**
   What a caller is told is committed: a session it was given is its assertion's and its owner's, and
   a replay is refused only for an assertion that really was consumed.
   */
  lemma {:induction false} OutcomesAreTrue(ls: seq<Step>, c: nat)
    requires Legal(ls) && c in After(ls).calls
    ensures Told(After(ls).db, After(ls).calls[c])
  {
    if ls != [] {
      var init, l := ls[..|ls| - 1], ls[|ls| - 1];
      var s := After(init);
      InvHolds(init);
      if c in s.calls { OutcomesAreTrue(init, c); }
      if l.Commit? {
        assert CallOk(s.db, s.resolved, l.c, s.calls[l.c]);
        OutcomesAreTrue(init, l.c);
        ToldAtCommit(s.db, s.resolved, l.c, s.calls[l.c], l.seen);
        CommitShape(s, l.c, l.seen);
        ToldGrows(s.db, s.calls[l.c].tx.value, s.calls[c]);
        hide CallOk, Inv, Merge, Told, Committed, OnCommit;
      } else if IsStatement(l) {
        StatementKeeps(s, l);
        ToldByStatement(s, l);
        hide Enabled, Do, Inv, Told;
      } else {
        hide Inv;
      }
    }
  }

  // ----- no deadlock -----

  ghost predicate Unused(s: State, id: string)
  {
    id !in s.db.owners && id !in s.db.sessions
    && forall d :: d in s.calls ==> id !in Held(s, d).owners && id !in Held(s, d).sessions
  }

  predicate Unfinished(s: State, c: nat)
  {
    c in s.calls && !s.calls[c].at.Done?
  }

  ghost predicate Moves(s: State, c: nat)
  {
    exists l: Step :: !l.Submit? && !l.Fail? && l.c == c && Enabled(s, l)
  }

  /** At these places a statement waits for nobody. */
  predicate Waitless(call: Call)
  {
    IsCommitting(call.at) || call.at.OwnerDeleting? || call.at.OwnerUpdating? || call.at.OwnerSelecting?
    || call.at.OwnerInserting? || (call.at.SessionInserting? && call.job.Exchange?)
  }

  lemma WaitlessMoves(s: State, c: nat, id: string)
    requires Unused(s, id) && Open(s, c) && Waitless(s.calls[c])
    ensures Moves(s, c)
  {
    assert id !in Held(s, c).owners && id !in Held(s, c).sessions;
    var p := s.calls[c].at;
    var l :=
      if IsCommitting(p) then Commit(c, true)
      else if p.OwnerDeleting? then DeleteOwner(c)
      else if p.OwnerUpdating? then UpdateOwner(c)
      else if p.OwnerSelecting? then SelectOwner(c)
      else if p.OwnerInserting? then InsertOwner(c, id)
      else InsertSession(c, id);
    assert Enabled(s, l);
    hide Enabled;
  }

  /** A call that holds a pair or a row waits for nobody. */
  lemma HolderIsWaitless(db: Tables, resolved: map<nat, Found>, c: nat, a: Call)
    requires CallOk(db, resolved, c, a) && a.tx.Some? && (a.tx.value.identities != map[] || a.locked)
    ensures Waitless(a)
  {
    hide Apart, Knows, NoSession, OnRecord;
  }

  /** The only waits: for an assertion, for a pair, for an identity row. */
  lemma WaitsFor(s: State, c: nat)
    requires Open(s, c) && Shape(s.calls[c]) && !s.calls[c].at.Done? && !Waitless(s.calls[c])
    ensures Moves(s, c) || (s.calls[c].at.Consuming? && !FreeJti(s, c, s.calls[c].job.jti))
      || !FreePair(s, c, s.calls[c].job.pair) || !FreeRow(s, c, s.calls[c].job.pair)
  {
    hide FreeJti, FreePair, FreeRow;
    if s.calls[c].at.Consuming? && FreeJti(s, c, s.calls[c].job.jti) {
      assert Enabled(s, Consume(c));
    } else if s.calls[c].at.IdentityInserting? && FreePair(s, c, s.calls[c].job.pair) {
      assert Enabled(s, InsertIdentity(c));
    } else if s.calls[c].at.IdentityUpdating? && FreeRow(s, c, s.calls[c].job.pair) {
      assert Enabled(s, UpdateIdentity(c));
    }
  }

  predicate Owning(s: State, d: nat)
  {
    Open(s, d) && (Held(s, d).identities != map[] || s.calls[d].locked)
  }

  lemma OwningMoves(s: State, d: nat, id: string)
    requires CallsInv(s) && Unused(s, id) && Owning(s, d)
    ensures Moves(s, d)
  {
    assert CallOk(s.db, s.resolved, d, s.calls[d]);
    hide CallsInv, CallOk, Moves, Waitless, Unused;
    HolderIsWaitless(s.db, s.resolved, d, s.calls[d]);
    WaitlessMoves(s, d, id);
  }

  /** Whoever is not at its start moves, or some call that owns a pair or a row does. */
  lemma SomeoneMoves(s: State, c: nat, id: string)
    requires CallsInv(s) && Unused(s, id) && Open(s, c) && !s.calls[c].at.Consuming?
    ensures exists d :: d in s.calls && Moves(s, d)
  {
    assert CallOk(s.db, s.resolved, c, s.calls[c]) && Shape(s.calls[c]) && !s.calls[c].at.Done?;
    hide CallOk, Moves, Waitless, Unused, Held;
    if Waitless(s.calls[c]) {
      WaitlessMoves(s, c, id);
    } else if !Moves(s, c) {
      WaitsFor(s, c);
      if !FreePair(s, c, s.calls[c].job.pair) {
        var d :| d in s.calls && d != c && s.calls[c].job.pair in Held(s, d).identities;
        assert Open(s, d) by { HoldsIsOpen(s, d); }
        OwningMoves(s, d, id);
      } else {
        var d :| d in s.calls && d != c && s.calls[d].locked && s.calls[d].job.pair == s.calls[c].job.pair;
        assert CallOk(s.db, s.resolved, d, s.calls[d]);
        LockedIsOpen(s.db, s.resolved, d, s.calls[d]);
        OwningMoves(s, d, id);
      }
    }
  }

  lemma HoldsIsOpen(s: State, d: nat)
    requires d in s.calls && (Held(s, d).identities != map[] || Held(s, d).consumed != map[])
    ensures Open(s, d)
  {
  }

  lemma LockedIsOpen(db: Tables, resolved: map<nat, Found>, d: nat, a: Call)
    requires CallOk(db, resolved, d, a) && a.locked
    ensures a.tx.Some?
  {
    hide Wrote, Apart, Knows, NoSession, OnRecord;
  }

  lemma HolderIsPast(db: Tables, resolved: map<nat, Found>, d: nat, a: Call)
    requires CallOk(db, resolved, d, a) && a.tx.Some? && a.tx.value.consumed != map[]
    ensures !a.at.Consuming?
  {
    hide Apart, Knows, NoSession, OnRecord;
  }

  /** No deadlock: as long as a call is unfinished, some call can take its next step without failing. */
  lemma NoDeadlock(ls: seq<Step>, c: nat, id: string)
    requires Legal(ls) && Unfinished(After(ls), c) && Unused(After(ls), id)
    ensures exists d :: d in After(ls).calls && Moves(After(ls), d)
  {
    InvHolds(ls);
    var s := After(ls);
    hide After, Legal, ApartInv, OwnersOk, SessionsOk, RecordOk, JtisOk, Moves, Unused, CallOk;
    if !Open(s, c) {
      BeginMoves(s, c);
    } else if !s.calls[c].at.Consuming? {
      SomeoneMoves(s, c, id);
    } else if !Moves(s, c) {
      assert CallOk(s.db, s.resolved, c, s.calls[c]);
      ConsumingWaits(s, c);
      if d :| d in s.calls && d != c && s.calls[c].job.jti in Held(s, d).consumed {
        HoldsIsOpen(s, d);
        assert CallOk(s.db, s.resolved, d, s.calls[d]);
        HolderIsPast(s.db, s.resolved, d, s.calls[d]);
        SomeoneMoves(s, d, id);
      }
    }
  }

  lemma BeginMoves(s: State, c: nat)
    requires Unfinished(s, c) && !Open(s, c)
    ensures Moves(s, c)
  {
    assert Enabled(s, Begin(c));
    hide Enabled;
  }

  lemma ConsumingWaits(s: State, c: nat)
    requires Open(s, c) && s.calls[c].at.Consuming? && CallOk(s.db, s.resolved, c, s.calls[c])
    ensures s.calls[c].job.Exchange?
    ensures Moves(s, c) || exists d :: d in s.calls && d != c && s.calls[c].job.jti in Held(s, d).consumed
  {
    hide Wrote, Apart, Knows, NoSession, OnRecord, Held;
    if FreeJti(s, c, s.calls[c].job.jti) { assert Enabled(s, Consume(c)); }
  }

  // ----- no trace of a rollback -----

  predicate Mine(l: Step, c: nat)
  {
    !l.Submit? && l.c == c
  }

  /** The run in which call `c` was submitted and then did nothing. */
  function Without(ls: seq<Step>, c: nat): seq<Step>
  {
    if ls == [] then []
    else if Mine(ls[|ls| - 1], c) then Without(ls[..|ls| - 1], c)
    else Without(ls[..|ls| - 1], c) + [ls[|ls| - 1]]
  }

  /** Two states that differ only in what call `c` is doing, of which nothing is left in the second. */
  ghost predicate Blind(s: State, t: State, c: nat)
  {
    && t.db == s.db && t.next == s.next && t.resolved == s.resolved && t.calls.Keys == s.calls.Keys
    && (forall d :: d in s.calls && d != c ==> t.calls[d] == s.calls[d])
    && (c in t.calls ==> t.calls[c].tx.None? && !t.calls[c].locked)
  }

  lemma BlindEnabled(s: State, t: State, c: nat, l: Step)
    requires Blind(s, t, c) && Enabled(s, l) && !Mine(l, c)
    ensures Enabled(t, l)
  {
    hide Merge, IsCommitting;
    assert forall d :: d in s.calls && d != c ==> Held(t, d) == Held(s, d);
    assert c in t.calls ==> Held(t, c) == NOTHING;
    hide Held;
  }

  lemma BlindStep(s: State, t: State, c: nat, l: Step)
    requires Blind(s, t, c) && Enabled(s, l) && Enabled(t, l) && !Mine(l, c)
    ensures Blind(Do(s, l), Do(t, l), c)
  {
    hide OnConsume, OnInsertOwner, OnInsertIdentity, OnDeleteOwner, OnUpdateIdentity, OnUpdateOwner, OnSelectOwner;
    hide OnInsertSession;
    hide FreeJti, FreePair, FreeOwner, FreeSession, FreeRow, Merge, RolledBack, IsCommitting, AfterCommit;
  }

  lemma OwnStepIsBlind(s: State, t: State, c: nat, l: Step)
    requires Blind(s, t, c) && Enabled(s, l) && Mine(l, c) && !l.Commit?
    ensures Blind(Do(s, l), t, c)
  {
    hide OnConsume, OnInsertOwner, OnInsertIdentity, OnDeleteOwner, OnUpdateIdentity, OnUpdateOwner, OnSelectOwner;
    hide OnInsertSession;
    hide FreeJti, FreePair, FreeOwner, FreeSession, FreeRow, Merge, RolledBack;
  }

  /**
   A call that never commits, whatever it did before it failed, leaves no trace: the run in which it
   does nothing is a run as well, and commits the same owners, identities, assertions and sessions.
   */
  lemma {:induction false} NoTrace(ls: seq<Step>, c: nat)
    requires Legal(ls) && forall i :: 0 <= i < |ls| ==> !(ls[i].Commit? && ls[i].c == c)
    ensures Legal(Without(ls, c)) && Blind(After(ls), After(Without(ls, c)), c)
  {
    hide Enabled, Do, Blind, Mine;
    if ls == [] {
      assert Blind(START, START, c) by { StartIsBlind(c); }
    } else {
      var init, l := ls[..|ls| - 1], ls[|ls| - 1];
      NoTrace(init, c);
      var s, t := After(init), After(Without(init, c));
      if Mine(l, c) {
        assert !l.Commit? by { MineIs(l, c); }
        OwnStepIsBlind(s, t, c, l);
      } else {
        BlindEnabled(s, t, c, l);
        BlindStep(s, t, c, l);
        Extend(Without(init, c), l);
      }
    }
  }

  lemma MineIs(l: Step, c: nat)
    ensures Mine(l, c) && l.Commit? ==> l.c == c
  {
  }

  lemma StartIsBlind(c: nat)
    ensures Blind(START, START, c)
  {
  }
}

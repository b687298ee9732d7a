/** A COMMIT keeps the invariant, and is one step of the locked store. */
module ExchangeCommits {
  import opened Results
  import opened Owners
  import opened ExchangeMachine
  import opened ExchangeInvariant
  import opened ExchangeKeeps

  /** The part of the invariant that says what a transaction about to commit holds. */
  predicate Ready(resolved: map<nat, Found>, c: nat, a: Call)
  {
    Shape(a) && a.tx == Some(Wrote(a)) && IsCommitting(a.at) && OnRecord(resolved, c, a)
  }

  lemma CommitIsReady(db: Tables, resolved: map<nat, Found>, c: nat, a: Call)
    requires CallOk(db, resolved, c, a) && a.tx.Some? && IsCommitting(a.at)
    ensures Ready(resolved, c, a) && Apart(db, a.tx.value) && Knows(db, a.tx.value, a)
  {
    hide Wrote, Apart, Knows, NoSession, Shape, OnRecord, IsCommitting;
  }

  // ----- the owners -----

  /** The owner rows a commit brings: none, or one new owner with its identity. */
  lemma CommittedOwners(resolved: map<nat, Found>, c: nat, a: Call)
    requires Ready(resolved, c, a)
    ensures var w := a.tx.value; var f := FoundAt(a.at);
      && (w.identities == map[] || (f.Some? && f.value.created && w.identities == map[a.job.pair := f.value.ownerId]))
      && w.owners == (if w.identities == map[] then {} else {f.value.ownerId})
      && (f.Some? && f.value.created && c !in resolved ==> a.job.pair in w.identities)
      && (f.Some? && c in resolved ==> w.identities == map[] && f.value == resolved[c])
  {
    var w := a.tx.value;
    var f := FoundAt(a.at);
    if f.None? || c in resolved || !f.value.created {
      assert w.identities == map[];
      assert w.owners == {};
    } else {
      assert w.identities == map[a.job.pair := f.value.ownerId];
      assert a.job.pair in w.identities;
      assert w.owners == {f.value.ownerId};
    }
  }

  lemma OwnersKept(db: Tables, resolved: map<nat, Found>, c: nat, a: Call)
    requires CallOk(db, resolved, c, a) && a.tx.Some? && IsCommitting(a.at) && OwnersOk(db)
    ensures OwnersOk(Merge(db, a.tx.value))
  {
    var w := a.tx.value;
    CommitIsReady(db, resolved, c, a);
    CommittedOwners(resolved, c, a);
    assert Apart(db, w);
    hide CallOk;
    var t := Merge(db, w);
    forall o | o in t.owners ensures exists p :: Maps(t, p, o) {
      if o in db.owners {
        var p :| Maps(db, p, o);
        assert Maps(t, p, o);
      } else {
        assert Maps(t, a.job.pair, o);
      }
    }
  }

  /** Seen from the owners, a commit that resolves is one step of the locked store; any other changes nothing. */
  lemma CommitIsLocked(db: Tables, resolved: map<nat, Found>, c: nat, a: Call)
    requires CallOk(db, resolved, c, a) && a.tx.Some? && IsCommitting(a.at)
    ensures var after := Merge(db, a.tx.value).identities; var f := FoundAt(a.at);
      if f.None? then after == db.identities
      else if c in resolved then after == db.identities && f.value == resolved[c]
      else Locked(db.identities, a.job.pair, f.value.ownerId) == (after, f.value)
  {
    var w := a.tx.value;
    var f := FoundAt(a.at);
    CommitIsReady(db, resolved, c, a);
    CommittedOwners(resolved, c, a);
    assert f.Some? ==> Maps(Merge(db, w), a.job.pair, f.value.ownerId);
    assert f.None? ==> w.identities == map[] by { hide Apart, NoSession, OnRecord; }
    assert w.identities != map[] ==> a.job.pair !in db.identities;
    hide CallOk;
    if w.identities == map[] {
      assert Merge(db, w).identities == db.identities;
    } else {
      assert Merge(db, w).identities == db.identities[a.job.pair := f.value.ownerId];
    }
  }

  // ----- sessions -----

  lemma CommittedSessions(resolved: map<nat, Found>, c: nat, a: Call)
    requires Ready(resolved, c, a)
    ensures var w := a.tx.value;
      && (w.consumed == map[] || (a.job.Exchange? && w.consumed == map[a.job.jti := a.job.pair]))
      && (w.sessions == map[] ||
          (a.at.SessionCommitting? && a.job.Exchange?
           && w.sessions == map[a.at.id := Session(a.at.found.ownerId, a.job.jti)]))
      && (a.at.SessionCommitting? ==> w.sessions != map[])
      && (w.consumed != map[] && a.joined ==> a.at.SessionCommitting?)
  {
    hide OnRecord;
    if a.at.SessionCommitting? { assert a.at.id in a.tx.value.sessions; }
  }

  /** A session's owner is the one its assertion's pair maps to. */
  lemma SessionFits(db: Tables, resolved: map<nat, Found>, c: nat, a: Call)
    requires CallOk(db, resolved, c, a) && a.tx.Some? && a.at.SessionCommitting?
    ensures var t := Merge(db, a.tx.value);
      && a.job.Exchange? && Maps(t, a.job.pair, a.at.found.ownerId)
      && a.job.jti in t.consumed && t.consumed[a.job.jti] == a.job.pair
      && NoSession(db, a.job.jti)
  {
    hide NoSession;
  }

  /** At most one new session, of an assertion that had none. */
  lemma SessionsGrow(db: Tables, w: Tables, id: string, o: string, jti: string)
    requires SessionsOk(db) && Apart(db, w)
    requires w.sessions == map[] || w.sessions == map[id := Session(o, jti)]
    requires w.sessions != map[] ==> id in Merge(db, w).sessions && SessionOk(Merge(db, w), id) && NoSession(db, jti)
    ensures SessionsOk(Merge(db, w))
  {
    var t := Merge(db, w);
    forall k | k in t.sessions ensures SessionOk(t, k) {
      if k in db.sessions { assert SessionOk(db, k); }
    }
  }

  lemma SessionsKept(db: Tables, resolved: map<nat, Found>, c: nat, a: Call)
    requires CallOk(db, resolved, c, a) && a.tx.Some? && IsCommitting(a.at) && SessionsOk(db)
    ensures SessionsOk(Merge(db, a.tx.value))
  {
    CommitIsReady(db, resolved, c, a);
    CommittedSessions(resolved, c, a);
    if a.at.SessionCommitting? { SessionFits(db, resolved, c, a); }
    assert Apart(db, a.tx.value) by { hide Knows, OnRecord, NoSession, Wrote, Apart; }
    hide CallOk, Ready, SessionsOk, Apart, IsCommitting, NoSession;
    if a.at.SessionCommitting? {
      SessionsGrow(db, a.tx.value, a.at.id, a.at.found.ownerId, a.job.jti);
    } else {
      SessionsGrow(db, a.tx.value, "", "", "");
    }
  }

  lemma JtisCommitted(db: Tables, resolved: map<nat, Found>, calls: map<nat, Call>, c: nat, a: Call)
    requires CallOk(db, resolved, c, a) && a.tx.Some? && IsCommitting(a.at) && JtisOk(db, calls)
    requires c in calls && calls[c].job == a.job && calls[c].joined == a.joined
    ensures JtisOk(Merge(db, a.tx.value), calls)
  {
    var w := a.tx.value;
    var t := Merge(db, w);
    CommitIsReady(db, resolved, c, a);
    CommittedSessions(resolved, c, a);
    assert Apart(db, w);
    hide CallOk;
    forall jti | jti in t.consumed ensures Honoured(t, calls, jti) {
      if jti in db.consumed {
        assert Honoured(db, calls, jti);
        if id :| HasSession(db, jti, id) { assert HasSession(t, jti, id); }
      } else if a.joined {
        assert HasSession(t, jti, a.at.id);
      } else {
        assert Unjoined(calls, jti, c);
      }
    }
  }

  // ----- the calls -----

  function Committed(a: Call, seen: bool): Call
  {
    a.(tx := None, locked := false, at := if seen then AfterCommit(a.at) else Done(Failed))
  }

  function Recorded(resolved: map<nat, Found>, c: nat, a: Call): map<nat, Found>
  {
    if FoundAt(a.at).Some? then resolved[c := FoundAt(a.at).value] else resolved
  }

  lemma MergeKeepsMaps(db: Tables, w: Tables, v: Tables, pair: Pair, o: string)
    requires Apart(db, w) && Apart(w, v) && Maps(Merge(db, v), pair, o)
    ensures Maps(Merge(Merge(db, w), v), pair, o)
  {
  }

  lemma NoSessionKept(db: Tables, w: Tables, jti: string)
    requires NoSession(db, jti) && forall id :: id in w.sessions ==> w.sessions[id].jti != jti
    ensures NoSession(Merge(db, w), jti)
  {
  }

  lemma ApartKept(db: Tables, w: Tables, v: Tables)
    requires Apart(db, v) && Apart(w, v)
    ensures Apart(Merge(db, w), v)
  {
  }

  lemma KnowsKept(db: Tables, w: Tables, v: Tables, call: Call)
    requires Apart(db, w) && Apart(w, v) && Knows(db, v, call)
    ensures Knows(Merge(db, w), v, call)
  {
    if Claimed(call).Some? { MergeKeepsMaps(db, w, v, call.job.pair, Claimed(call).value.ownerId); }
    assert forall p, o :: Maps(db, p, o) ==> Maps(Merge(db, w), p, o);
    assert JtiCommitted(call) ==> Merge(db, w).consumed[call.job.jti] == db.consumed[call.job.jti];
    hide Claimed, JtiCommitted;
  }

  lemma JtiNotAgain(db: Tables, resolved: map<nat, Found>, c: nat, a: Call)
    requires CallOk(db, resolved, c, a) && a.tx.Some?
    ensures Apart(db, a.tx.value) && (JtiCommitted(a) ==> a.job.jti !in a.tx.value.consumed)
  {
    hide NoSession, OnRecord, Wrote;
  }

  lemma DoneOk(db: Tables, resolved: map<nat, Found>, c: nat, b: Call)
    requires b.at.Done? && b.tx == None && !b.locked
    ensures CallOk(db, resolved, c, b) && !Past(b)
  {
    NothingIsApart(db);
    hide Apart, NoSession, Maps;
  }

  /** Between its first store call and its second. */
  lemma AfterJtiOk(db: Tables, resolved: map<nat, Found>, c: nat, b: Call)
    requires b.job.Exchange? && !b.joined && b.at.OwnerInserting? && b.tx == None && !b.locked && c !in resolved
    requires b.job.jti in db.consumed && db.consumed[b.job.jti] == b.job.pair && NoSession(db, b.job.jti)
    ensures CallOk(db, resolved, c, b)
  {
    NothingIsApart(db);
    hide Apart, NoSession, Maps;
  }

  /** Between its second store call and its third. */
  lemma AfterOwnerOk(db: Tables, resolved: map<nat, Found>, c: nat, b: Call)
    requires b.job.Exchange? && !b.joined && b.at.SessionInserting? && b.tx == None && !b.locked && c in resolved
    requires resolved[c] == b.at.found
    requires b.job.jti in db.consumed && db.consumed[b.job.jti] == b.job.pair && NoSession(db, b.job.jti)
    requires Maps(db, b.job.pair, b.at.found.ownerId)
    ensures CallOk(db, resolved, c, b)
  {
    NothingIsApart(db);
    assert Merge(db, NOTHING) == db;
    hide Apart, NoSession, Maps, Merge;
  }

  lemma NoSessionYet(db: Tables, resolved: map<nat, Found>, c: nat, a: Call)
    requires CallOk(db, resolved, c, a) && a.tx.Some? && (a.at.JtiCommitting? || a.at.OwnerCommitting?)
    ensures a.job.Exchange? && !a.joined && c !in resolved && NoSession(Merge(db, a.tx.value), a.job.jti)
  {
    assert a.tx.value.sessions == map[];
    NoSessionKept(db, a.tx.value, a.job.jti);
    hide Apart, NoSession, Knows, Wrote, Merge;
  }

  lemma JtiThere(db: Tables, resolved: map<nat, Found>, c: nat, a: Call)
    requires CallOk(db, resolved, c, a) && a.tx.Some? && (a.at.JtiCommitting? || a.at.OwnerCommitting?)
    ensures var t := Merge(db, a.tx.value); a.job.jti in t.consumed && t.consumed[a.job.jti] == a.job.pair
  {
    hide NoSession, OnRecord, Maps;
  }

  lemma OwnerThere(db: Tables, resolved: map<nat, Found>, c: nat, a: Call)
    requires CallOk(db, resolved, c, a) && a.tx.Some? && a.at.OwnerCommitting?
    ensures Maps(Merge(db, a.tx.value), a.job.pair, a.at.found.ownerId)
  {
    hide NoSession, OnRecord, Maps, Wrote, Apart, Merge;
  }

  lemma OwnCallKept(db: Tables, resolved: map<nat, Found>, c: nat, a: Call, seen: bool)
    requires CallOk(db, resolved, c, a) && a.tx.Some? && IsCommitting(a.at)
    ensures CallOk(Merge(db, a.tx.value), Recorded(resolved, c, a), c, Committed(a, seen))
    ensures Past(Committed(a, seen)) ==> Past(a)
  {
    var b := Committed(a, seen);
    hide CallOk, Merge, NoSession;
    if seen && a.at.JtiCommitting? {
      NoSessionYet(db, resolved, c, a);
      JtiThere(db, resolved, c, a);
      AfterJtiOk(Merge(db, a.tx.value), resolved, c, b);
    } else if seen && a.at.OwnerCommitting? {
      NoSessionYet(db, resolved, c, a);
      JtiThere(db, resolved, c, a);
      OwnerThere(db, resolved, c, a);
      AfterOwnerOk(Merge(db, a.tx.value), Recorded(resolved, c, a), c, b);
    } else {
      DoneOk(Merge(db, a.tx.value), Recorded(resolved, c, a), c, b);
    }
  }

  lemma OtherCallKept(db: Tables, resolved: map<nat, Found>, c: nat, a: Call, d: nat, other: Call)
    requires CallOk(db, resolved, c, a) && a.tx.Some? && IsCommitting(a.at) && CallOk(db, resolved, d, other)
    requires c != d && CallsApart(a, other)
    ensures CallOk(Merge(db, a.tx.value), Recorded(resolved, c, a), d, other)
  {
    var w := a.tx.value;
    CommitIsReady(db, resolved, c, a);
    CommittedSessions(resolved, c, a);
    JtiNotAgain(db, resolved, c, a);
    KnowsKept(db, w, Rows(other), other);
    ApartKept(db, w, Rows(other));
    hide Apart, Knows, Merge;
    if Past(other) {
      assert w.sessions != map[] ==> Past(a);
      NoSessionKept(db, w, other.job.jti);
    }
    hide NoSession, Wrote, Past;
  }

  // ----- the record -----

  /** A call that found its owner goes on record. */
  lemma FoundRecorded(s: State, t: State, c: nat, f: Found)
    requires RecordOk(s) && t.db.identities == s.db.identities && c in s.calls
    requires t.calls.Keys == s.calls.Keys && forall d :: d in s.calls ==> t.calls[d].job.pair == s.calls[d].job.pair
    requires t.resolved == s.resolved
      || (c !in s.resolved && !f.created && t.resolved == s.resolved[c := f]
          && Maps(s.db, s.calls[c].job.pair, f.ownerId))
    ensures RecordOk(t)
  {
    forall p, d {:trigger Creator(t, p, d)} ensures Creator(t, p, d) <==> Creator(s, p, d) { }
    forall p | p in t.db.identities ensures exists d :: Creator(t, p, d) {
      var d :| Creator(s, p, d);
      assert Creator(t, p, d);
    }
  }

  ghost predicate Makes(s: State, t: State, c: nat, f: Found)
  {
    && c in s.calls && c !in s.resolved && f.created && s.calls[c].job.pair !in s.db.identities
    && t.db.identities == s.db.identities[s.calls[c].job.pair := f.ownerId] && t.resolved == s.resolved[c := f]
    && t.calls.Keys == s.calls.Keys && forall d :: d in s.calls ==> t.calls[d].job.pair == s.calls[d].job.pair
  }

  lemma CreatorsAfter(s: State, t: State, c: nat, f: Found)
    requires Makes(s, t, c, f)
    ensures forall p, d :: Creator(t, p, d) <==> Creator(s, p, d) || (d == c && p == s.calls[c].job.pair)
  {
  }

  lemma NoCreatorBefore(s: State, pair: Pair)
    requires GivenOwners(s) && pair !in s.db.identities
    ensures forall d :: !Creator(s, pair, d)
  {
  }

  /** A call that made its owner goes on record as the only one that did. */
  lemma MadeRecorded(s: State, t: State, c: nat, f: Found)
    requires RecordOk(s) && Makes(s, t, c, f)
    ensures RecordOk(t)
  {
    var pair := s.calls[c].job.pair;
    CreatorsAfter(s, t, c, f);
    NoCreatorBefore(s, pair);
    MadeGiven(s, t, c, f);
    hide GivenOwners, CreatedByOne, Creator;
    EachStillCreated(s, t, c, pair);
    OneCreated(s, t, c, pair);
  }

  lemma MadeGiven(s: State, t: State, c: nat, f: Found)
    requires GivenOwners(s) && Makes(s, t, c, f)
    ensures GivenOwners(t)
  {
  }

  lemma EachStillCreated(s: State, t: State, c: nat, pair: Pair)
    requires EachCreated(s) && forall p, d :: Creator(t, p, d) <==> Creator(s, p, d) || (d == c && p == pair)
    requires forall p :: p in t.db.identities ==> p in s.db.identities || p == pair
    ensures EachCreated(t)
  {
    hide Creator;
    forall p | p in t.db.identities ensures exists d :: Creator(t, p, d) {
      if p == pair {
        assert Creator(t, p, c);
      } else {
        var d :| Creator(s, p, d);
        assert Creator(t, p, d);
      }
    }
  }

  lemma OneCreated(s: State, t: State, c: nat, pair: Pair)
    requires CreatedByOne(s) && forall p, d :: Creator(t, p, d) <==> Creator(s, p, d) || (d == c && p == pair)
    requires forall d :: !Creator(s, pair, d)
    ensures CreatedByOne(t)
  {
    hide Creator;
  }

  lemma RecordedOk(s: State, c: nat, a: Call, b: Call)
    requires c in s.calls && s.calls[c] == a && CallOk(s.db, s.resolved, c, a) && a.tx.Some? && IsCommitting(a.at)
    requires b.job == a.job
    requires RecordOk(s)
    ensures RecordOk(State(Merge(s.db, a.tx.value), s.calls[c := b], s.next, Recorded(s.resolved, c, a)))
  {
    var t := State(Merge(s.db, a.tx.value), s.calls[c := b], s.next, Recorded(s.resolved, c, a));
    var f := FoundAt(a.at);
    CommitIsLocked(s.db, s.resolved, c, a);
    hide CallOk, Merge, RecordOk;
    if f.None? {
      FoundRecorded(s, t, c, Found("", false));
    } else if c in s.resolved {
      assert t.resolved == s.resolved;
      FoundRecorded(s, t, c, f.value);
    } else if a.job.pair in s.db.identities {
      FoundRecorded(s, t, c, f.value);
    } else {
      MadeRecorded(s, t, c, f.value);
    }
  }

  // ----- all of it -----

  lemma CallsKept(s: State, c: nat, seen: bool)
    requires CallsInv(s) && ApartInv(s) && c in s.calls && s.calls[c].tx.Some? && IsCommitting(s.calls[c].at)
    ensures CallsInv(OnCommit(s, c, s.calls[c], seen))
  {
    var a := s.calls[c];
    var t := OnCommit(s, c, a, seen);
    assert t == State(Merge(s.db, a.tx.value), s.calls[c := Committed(a, seen)], s.next, Recorded(s.resolved, c, a));
    assert CallOk(s.db, s.resolved, c, a);
    OwnCallKept(s.db, s.resolved, c, a, seen);
    hide Merge, Recorded, CallOk, CallsApart, OnCommit, Committed, AfterCommit;
    forall d | d in t.calls ensures d < t.next && CallOk(t.db, t.resolved, d, t.calls[d]) {
      if d != c { OtherCallKept(s.db, s.resolved, c, a, d, s.calls[d]); }
    }
  }

  lemma CommittedApart(a: Call, b: Call, d: Call)
    requires CallsApart(a, d) && b.tx == None && b.job == a.job && (Past(b) ==> Past(a))
    ensures CallsApart(b, d) && CallsApart(d, b)
  {
    NothingIsApart(Rows(d));
    hide Past;
  }

  lemma ReplacedApart(s: State, calls: map<nat, Call>, c: nat, b: Call)
    requires ApartInv(s) && calls == s.calls[c := b]
    requires forall d :: d in s.calls && d != c ==> CallsApart(b, s.calls[d]) && CallsApart(s.calls[d], b)
    ensures forall d, e :: d in calls && e in calls && d != e ==> CallsApart(calls[d], calls[e])
  {
    hide CallsApart;
  }

  lemma CallsStayApart(s: State, c: nat, seen: bool)
    requires CallsInv(s) && ApartInv(s) && c in s.calls && s.calls[c].tx.Some? && IsCommitting(s.calls[c].at)
    ensures ApartInv(OnCommit(s, c, s.calls[c], seen))
  {
    var a := s.calls[c];
    var b := Committed(a, seen);
    assert CallOk(s.db, s.resolved, c, a);
    OwnCallKept(s.db, s.resolved, c, a, seen);
    assert b.tx == None && b.job == a.job && OnCommit(s, c, a, seen).calls == s.calls[c := b];
    hide CallOk, Past, Committed, OnCommit;
    forall d | d in s.calls && d != c ensures CallsApart(b, s.calls[d]) && CallsApart(s.calls[d], b) {
      CommittedApart(a, b, s.calls[d]);
    }
    ReplacedApart(s, OnCommit(s, c, a, seen).calls, c, b);
  }

  lemma JtisStay(s: State, c: nat, seen: bool)
    requires c in s.calls && CallOk(s.db, s.resolved, c, s.calls[c]) && s.calls[c].tx.Some?
    requires IsCommitting(s.calls[c].at) && JtisOk(s.db, s.calls)
    ensures JtisOk(Merge(s.db, s.calls[c].tx.value), s.calls[c := Committed(s.calls[c], seen)])
  {
    hide CallOk, JtisOk, Merge;
    var after := s.calls[c := Committed(s.calls[c], seen)];
    JtisKept(s.db, s.calls, after);
    JtisCommitted(s.db, s.resolved, after, c, s.calls[c]);
  }

  lemma CommitShape(s: State, c: nat, seen: bool)
    requires c in s.calls && s.calls[c].tx.Some?
    ensures var a := s.calls[c];
      OnCommit(s, c, a, seen)
        == State(Merge(s.db, a.tx.value), s.calls[c := Committed(a, seen)], s.next, Recorded(s.resolved, c, a))
  {
  }

  lemma OnCommitKeeps(s: State, c: nat, seen: bool)
    requires Inv(s) && c in s.calls && s.calls[c].tx.Some? && IsCommitting(s.calls[c].at)
    ensures Inv(OnCommit(s, c, s.calls[c], seen))
  {
    var a := s.calls[c];
    CommitShape(s, c, seen);
    hide CallOk, ApartInv, OwnersOk, SessionsOk, RecordOk, JtisOk, Merge, Recorded, OnCommit, IsCommitting;
    assert CallOk(s.db, s.resolved, c, a);
    OwnersKept(s.db, s.resolved, c, a);
    SessionsKept(s.db, s.resolved, c, a);
    assert Committed(a, seen).job == a.job;
    hide Committed;
    RecordedOk(s, c, a, Committed(a, seen));
    CallsKept(s, c, seen);
    CallsStayApart(s, c, seen);
    JtisStay(s, c, seen);
  }

  lemma CommitKeeps(s: State, c: nat, seen: bool)
    requires Inv(s) && Enabled(s, Commit(c, seen))
    ensures Inv(Do(s, Commit(c, seen)))
  {
    hide Inv;
    OnCommitKeeps(s, c, seen);
  }

  // ----- a new call -----

  function NewCall(job: Job, joined: bool): Call
  {
    Call(job, joined, None, false, if job.Exchange? then Consuming else OwnerInserting)
  }

  lemma NewCallOk(db: Tables, resolved: map<nat, Found>, c: nat, job: Job, joined: bool)
    requires c !in resolved
    ensures CallOk(db, resolved, c, NewCall(job, joined))
  {
    NothingIsApart(db);
    hide NoSession, Apart;
  }

  lemma NewCallApart(job: Job, joined: bool, d: Call)
    ensures CallsApart(NewCall(job, joined), d) && CallsApart(d, NewCall(job, joined))
  {
    NothingIsApart(Rows(d));
  }

  lemma NewCallKeepsCalls(s: State, t: State, c: nat, b: Call)
    requires CallsInv(s) && RecordOk(s) && c == s.next && CallOk(s.db, s.resolved, c, b)
    requires t.calls == s.calls[c := b] && t.db == s.db && t.resolved == s.resolved && t.next == c + 1
    ensures CallsInv(t)
  {
    hide CallOk, RecordOk;
  }

  lemma NextIsNew(s: State)
    requires CallsInv(s) && RecordOk(s)
    ensures s.next !in s.calls && s.next !in s.resolved
  {
    hide CallOk;
  }

  lemma SubmitShape(s: State, job: Job, joined: bool)
    ensures Do(s, Submit(job, joined)) == State(s.db, s.calls[s.next := NewCall(job, joined)], s.next + 1, s.resolved)
  {
  }

  lemma SubmitKeeps(s: State, job: Job, joined: bool)
    requires Inv(s)
    ensures Inv(Do(s, Submit(job, joined)))
  {
    var c, b := s.next, NewCall(job, joined);
    var t := State(s.db, s.calls[c := b], c + 1, s.resolved);
    hide CallOk, CallsApart, OwnersOk, SessionsOk, JtisOk, RecordOk, CallsInv, Do, NewCall;
    SubmitShape(s, job, joined);
    NextIsNew(s);
    NewCallOk(s.db, s.resolved, c, job, joined);
    NewCallKeepsCalls(s, t, c, b);
    forall d | d in s.calls ensures CallsApart(b, s.calls[d]) && CallsApart(s.calls[d], b) {
      NewCallApart(job, joined, s.calls[d]);
    }
    ReplacedApart(s, t.calls, c, b);
    assert ApartInv(t);
    hide ApartInv;
    NewRecorded(s, t, c);
    JtisKept(s.db, s.calls, t.calls);
  }

  lemma NewRecorded(s: State, t: State, c: nat)
    requires RecordOk(s) && c !in s.calls && t.db == s.db && t.resolved == s.resolved
    requires c in t.calls && s.calls.Keys <= t.calls.Keys && forall d :: d in s.calls ==> t.calls[d] == s.calls[d]
    ensures RecordOk(t)
  {
    forall p, d {:trigger Creator(t, p, d)} ensures Creator(t, p, d) <==> Creator(s, p, d) { }
    forall p | p in t.db.identities ensures exists d :: Creator(t, p, d) {
      var d :| Creator(s, p, d);
      assert Creator(t, p, d);
    }
  }

  lemma StepKeeps(s: State, l: Step)
    requires Inv(s) && Enabled(s, l)
    ensures Inv(Do(s, l))
  {
    hide Inv, Do, Enabled;
    match l
    case Submit(job, joined) => SubmitKeeps(s, job, joined);
    case Commit(c, seen) => CommitKeeps(s, c, seen);
    case _ => StatementKeeps(s, l);
  }
}

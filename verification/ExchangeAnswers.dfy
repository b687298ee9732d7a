/** What each call of the exchange is told, and what it has committed by then, in every run. */
module ExchangeAnswers {
  import opened Results
  import opened Owners
  import opened ExchangeMachine
  import opened ExchangeInvariant
  import opened ExchangeKeeps
  import opened ExchangeCommits
  import opened ExchangeRuns

  // ----- what a commit has done, and what its caller goes on with -----

  /**
   A caller that sees its commit from `s` to `t` is told of a session exactly if that commit brought one, of
   a replay only if it brought nothing for an assertion consumed before it, and of the owner on record.  An
   exchange that is not in one transaction goes on with its next store call.
   */
  predicate Answered(s: State, t: State, c: nat)
    requires c in s.calls && c in t.calls
  {
    var (job, joined) := (s.calls[c].job, s.calls[c].joined);
    match t.calls[c].at
    case Done(SignedIn(f, id)) =>
      job.Exchange? && id !in s.db.sessions && t.db.sessions == s.db.sessions[id := Session(f.ownerId, job.jti)]
      && c in t.resolved && t.resolved[c] == f
    case Done(Replay) => job.Exchange? && job.jti in s.db.consumed && t.db == s.db && t.resolved == s.resolved
    case Done(Resolved(f)) =>
      job.Resolve? && c !in s.resolved && t.resolved == s.resolved[c := f]
      && t.db.consumed == s.db.consumed && t.db.sessions == s.db.sessions
    case OwnerInserting =>
      job.Exchange? && !joined && job.jti !in s.db.consumed && t.resolved == s.resolved
      && t.db == s.db.(consumed := s.db.consumed[job.jti := job.pair])
    case SessionInserting(f) =>
      job.Exchange? && !joined && c !in s.resolved && t.resolved == s.resolved[c := f]
      && t.db.consumed == s.db.consumed && t.db.sessions == s.db.sessions
    case _ => false
  }

  /** What the transaction of a call brings, by the place the call is at. */
  lemma CommitBrings(resolved: map<nat, Found>, c: nat, a: Call)
    requires Ready(resolved, c, a)
    ensures var w := a.tx.value;
      match a.at
      case JtiCommitting =>
        a.job.Exchange? && !a.joined && w == Tables({}, map[], map[a.job.jti := a.job.pair], map[])
      case ReplayCommitting => a.job.Exchange? && w == NOTHING
      case OwnerCommitting(_) =>
        a.job.Exchange? && !a.joined && w.consumed == map[] && w.sessions == map[] && c !in resolved
      case ResolveCommitting(_) => a.job.Resolve? && w.consumed == map[] && w.sessions == map[] && c !in resolved
      case SessionCommitting(f, id) => a.job.Exchange? && w.sessions == map[id := Session(f.ownerId, a.job.jti)]
      case _ => false
  {
    CommittedSessions(resolved, c, a);
    hide OwnerRows;
  }

  lemma AddsOne<K, V>(a: map<K, V>, b: map<K, V>)
    ensures b == map[] ==> a + b == a
    ensures forall k, v :: b == map[k := v] ==> a + b == a[k := v]
  {
  }

  /** And what that does to the committed rows. */
  lemma CommitAdds(db: Tables, resolved: map<nat, Found>, c: nat, a: Call)
    requires Ready(resolved, c, a)
    ensures var t := Merge(db, a.tx.value);
      match a.at
      case JtiCommitting => t == db.(consumed := db.consumed[a.job.jti := a.job.pair])
      case ReplayCommitting => t == db
      case SessionCommitting(f, id) => t.sessions == db.sessions[id := Session(f.ownerId, a.job.jti)]
      case _ => t.consumed == db.consumed && t.sessions == db.sessions
  {
    var w := a.tx.value;
    CommitBrings(resolved, c, a);
    AddsOne(db.sessions, w.sessions);
    AddsOne(db.consumed, w.consumed);
    AddsOne(db.identities, w.identities);
    hide Ready;
  }

  lemma CommittedAnswers(s: State, c: nat)
    requires c in s.calls && CallOk(s.db, s.resolved, c, s.calls[c]) && s.calls[c].tx.Some?
    requires IsCommitting(s.calls[c].at) && Told(s.db, s.calls[c])
    ensures c in OnCommit(s, c, s.calls[c], true).calls && Answered(s, OnCommit(s, c, s.calls[c], true), c)
  {
    var a := s.calls[c];
    CommitIsReady(s.db, s.resolved, c, a);
    CommitBrings(s.resolved, c, a);
    CommitAdds(s.db, s.resolved, c, a);
    CommitShape(s, c, true);
    if a.at.JtiCommitting? {
      assert a.job.jti in a.tx.value.consumed;
    } else if a.at.SessionCommitting? {
      assert a.at.id in a.tx.value.sessions;
    }
    assert Apart(s.db, a.tx.value);
    hide CallOk, Ready, Knows, OnCommit, Merge;
  }

  lemma CommitAnswers(ls: seq<Step>, c: nat)
    requires Legal(ls) && Enabled(After(ls), Commit(c, true))
    ensures var (s, t) := (After(ls), Do(After(ls), Commit(c, true)));
      c in s.calls && c in t.calls && t.calls[c].job == s.calls[c].job && Answered(s, t, c)
  {
    InvHolds(ls);
    var s := After(ls);
    OutcomesAreTrue(ls, c);
    assert CallOk(s.db, s.resolved, c, s.calls[c]);
    hide CallOk, Told, Answered, After, Legal, Inv;
    CommittedAnswers(s, c);
  }

  /** Whoever commits a session and learns of the commit has been told of that session and its owner. */
  lemma SessionIsTold(ls: seq<Step>, c: nat, id: string)
    requires Legal(ls) && Enabled(After(ls), Commit(c, true))
    requires id !in After(ls).db.sessions && id in Do(After(ls), Commit(c, true)).db.sessions
    ensures var t := Do(After(ls), Commit(c, true)); var ses := t.db.sessions[id];
      c in t.calls && c in t.resolved && t.resolved[c].ownerId == ses.ownerId
      && t.calls[c].job.Exchange? && t.calls[c].job.jti == ses.jti
      && t.calls[c].at == Done(SignedIn(Found(ses.ownerId, t.resolved[c].created), id))
  {
    CommitAnswers(ls, c);
    hide After, Legal, Enabled, Do;
  }

  // ----- replays -----

  predicate CommitsOf(l: Step, c: nat)
  {
    l.Commit? && l.c == c
  }

  /** Call `c` has not begun, or waits for its assertion, or has found it consumed. */
  predicate AtStart(s: State, c: nat)
  {
    c !in s.calls || s.calls[c].at.Consuming? || s.calls[c].at.ReplayCommitting?
  }

  lemma StartsFromStart(s: State, l: Step, c: nat)
    requires CallsInv(s) && Enabled(s, l) && AtStart(Do(s, l), c)
    ensures AtStart(s, c) && !CommitsOf(l, c)
  {
    hide CallOk, FreeJti, FreePair, FreeOwner, FreeSession, FreeRow, Merge;
  }

  lemma {:induction false} StartHasNotCommitted(ls: seq<Step>, c: nat, i: nat)
    requires Legal(ls) && AtStart(After(ls), c) && i < |ls|
    ensures !CommitsOf(ls[i], c)
    decreases |ls|
  {
    hide Enabled, Do, AtStart, CommitsOf, CallsInv;
    var init := ls[..|ls| - 1];
    InvHolds(init);
    StartsFromStart(After(init), ls[|ls| - 1], c);
    if i < |init| { StartHasNotCommitted(init, c, i); }
  }

  /** With its step `k`, and no other, call `c` has committed, and it has committed nothing. */
  ghost predicate CommittedNothing(ls: seq<Step>, c: nat, k: int)
  {
    && 0 <= k < |ls| && ls[k] == Commit(c, true) && Legal(ls[..k]) && Legal(ls[..k + 1])
    && After(ls[..k + 1]).db == After(ls[..k]).db
    && forall i :: 0 <= i < |ls| && i != k ==> !CommitsOf(ls[i], c)
  }

  lemma ReplayingCommits(ls: seq<Step>, c: nat)
    requires ls != [] && Legal(ls) && ls[|ls| - 1] == Commit(c, true)
    requires c in After(ls).calls && After(ls).calls[c].at == Done(Replay)
    ensures CommittedNothing(ls, c, |ls| - 1)
    ensures c in After(ls[..|ls| - 1]).calls && After(ls[..|ls| - 1]).calls[c].at.ReplayCommitting?
  {
    var init := ls[..|ls| - 1];
    var s := After(init);
    assert ls[..|ls|] == ls;
    CommitAnswers(init, c);
    assert s.calls[c].at.ReplayCommitting? && AtStart(s, c) by { hide FreeJti, FreePair, FreeOwner; }
    forall i | 0 <= i < |ls| && i != |ls| - 1 ensures !CommitsOf(ls[i], c) { StartHasNotCommitted(init, c, i); }
    hide Legal, After, Enabled, Do;
  }

  lemma DoneStays(s: State, l: Step, c: nat)
    requires Enabled(s, l) && c in Do(s, l).calls && Do(s, l).calls[c].at == Done(Replay)
    ensures (c in s.calls && s.calls[c].at == Done(Replay) && !CommitsOf(l, c)) || l == Commit(c, true)
  {
    hide FreeJti, FreePair, FreeOwner, FreeSession, FreeRow, Merge;
  }

  lemma Lengthened(ls: seq<Step>, c: nat, k: int)
    requires ls != [] && CommittedNothing(ls[..|ls| - 1], c, k) && !CommitsOf(ls[|ls| - 1], c)
    ensures CommittedNothing(ls, c, k) && ls[..|ls| - 1][..k] == ls[..k]
  {
    var init := ls[..|ls| - 1];
    assert init[..k] == ls[..k] && init[..k + 1] == ls[..k + 1] && init[k] == ls[k];
    forall i | 0 <= i < |ls| && i != k ensures !CommitsOf(ls[i], c) {
      if i < |init| { assert init[i] == ls[i]; }
    }
    hide Legal, After, CommitsOf;
  }

  /**
   A call that is told of a replay has opened no session: it has committed nothing, and its assertion was
   consumed when it did.
   */
  lemma {:induction false} ReplayIsAnothers(ls: seq<Step>, c: nat)
    requires Legal(ls) && c in After(ls).calls && After(ls).calls[c].at == Done(Replay)
    ensures exists k :: CommittedNothing(ls, c, k) && SpentAt(ls[..k], c)
    decreases |ls|
  {
    var init, l := ls[..|ls| - 1], ls[|ls| - 1];
    hide Enabled, Do;
    DoneStays(After(init), l, c);
    hide CommittedNothing, SpentAt;
    if l == Commit(c, true) {
      ReplayingCommits(ls, c);
      SpentWhenFound(init, c);
    } else {
      ReplayIsAnothers(init, c);
      var k :| CommittedNothing(init, c, k) && SpentAt(init[..k], c);
      Lengthened(ls, c, k);
    }
  }

  ghost predicate SpentAt(ls: seq<Step>, c: nat)
  {
    Legal(ls) && c in After(ls).calls && After(ls).calls[c].job.Exchange?
    && After(ls).calls[c].job.jti in After(ls).db.consumed
  }

  lemma SpentWhenFound(ls: seq<Step>, c: nat)
    requires Legal(ls) && c in After(ls).calls && After(ls).calls[c].at.ReplayCommitting?
    ensures SpentAt(ls, c)
  {
    OutcomesAreTrue(ls, c);
    InvHolds(ls);
    assert CallOk(After(ls).db, After(ls).resolved, c, After(ls).calls[c]);
    hide After, Legal, Inv;
  }

  // ----- failures -----

  /** Any call may fail until it is over, and no failure changes what is committed. */
  lemma MayFail(ls: seq<Step>, c: nat)
    requires Legal(ls) && Unfinished(After(ls), c)
    ensures var (s, l) := (After(ls), Fail(c));
      Enabled(s, l) && Do(s, l) == Put(s, c, s.calls[c].(tx := None, locked := false, at := Done(Failed)))
  {
    hide Legal, After;
  }

  /** A commit may go unnoticed: the same is committed, and the caller is told of a failure. */
  lemma MayGoUnseen(ls: seq<Step>, c: nat)
    requires Legal(ls) && Enabled(After(ls), Commit(c, true))
    ensures var s := After(ls);
      Enabled(s, Commit(c, false)) &&
      var (seen, unseen) := (Do(s, Commit(c, true)), Do(s, Commit(c, false)));
      && unseen.db == seen.db && unseen.resolved == seen.resolved && unseen.next == seen.next
      && c in s.calls && unseen.calls == s.calls[c := s.calls[c].(tx := None, locked := false, at := Done(Failed))]
  {
    hide Legal, After, Merge, AfterCommit, FoundAt;
  }
}

/**
 packages/digi-bridge/src/exchange.ts on the stores of postgres-stores.ts, as interleaved calls on
 one database at the level READ COMMITTED.  Each SQL statement is one step.  A transaction's rows
 are its own until COMMIT; an INSERT of a unique key waits while another open transaction holds that
 key; any step may fail instead, which rolls its transaction back, and a COMMIT may take effect
 without its caller learning so.  Times, token texts and identity ids are left out.
 */
module ExchangeMachine {
  import opened Results
  import opened Owners

  /** `jti` is not a column: it says which assertion a session was opened for. */
  datatype Session = Session(ownerId: string, jti: string)

  datatype Tables = Tables(
    owners: set<string>,
    identities: map<Pair, string>,
    consumed: map<string, Pair>,
    sessions: map<string, Session>)

  const NOTHING := Tables({}, map[], map[], map[])

  function Merge(db: Tables, w: Tables): Tables
  {
    Tables(db.owners + w.owners, db.identities + w.identities, db.consumed + w.consumed, db.sessions + w.sessions)
  }

  /** `resolveOrCreate` on its own, or inside the write of an exchange. */
  datatype Job = Exchange(jti: string, pair: Pair) | Resolve(pair: Pair)

  datatype Outcome = Replay | SignedIn(found: Found, sessionId: string) | Resolved(found: Found) | Failed

  /** The statement a call makes next, or the COMMIT it is about to send: `JtiCommitting` and `OwnerCommitting`
   end the transaction of one store call that joined no other. */
  datatype Place =
    | Consuming
    | OwnerInserting
    | IdentityInserting(o: string)
    | OwnerDeleting(o: string)
    | IdentityUpdating
    | OwnerUpdating(o: string)
    | OwnerSelecting(o: string)
    | SessionInserting(found: Found)
    | JtiCommitting
    | ReplayCommitting
    | OwnerCommitting(found: Found)
    | ResolveCommitting(found: Found)
    | SessionCommitting(found: Found, id: string)
    | Done(outcome: Outcome)

  /**
   `joined`: the call runs inside `runDigiCoreTransaction`, so its store calls join one transaction.
   `locked`: its transaction has updated the identity row of its pair, and the row waits for it.
   */
  datatype Call = Call(job: Job, joined: bool, tx: Option<Tables>, locked: bool, at: Place)

  datatype State = State(db: Tables, calls: map<nat, Call>, next: nat, resolved: map<nat, Found>)

  const START := State(NOTHING, map[], 0, map[])

  datatype Step =
    | Submit(job: Job, joined: bool)
    | Begin(c: nat)
    | Consume(c: nat)
    | InsertOwner(c: nat, id: string)
    | InsertIdentity(c: nat)
    | DeleteOwner(c: nat)
    | UpdateIdentity(c: nat)
    | UpdateOwner(c: nat)
    | SelectOwner(c: nat)
    | InsertSession(c: nat, id: string)
    | Commit(c: nat, seen: bool)
    | Fail(c: nat)

  // ----- statements -----

  function Put(s: State, c: nat, call: Call): State
  {
    s.(calls := s.calls[c := call])
  }

  /** `resolveOrCreate` returns: `withClient` commits unless it joined an open transaction. */
  function Return(call: Call, found: Found): Place
  {
    if call.job.Resolve? then ResolveCommitting(found)
    else if call.joined then SessionInserting(found)
    else OwnerCommitting(found)
  }

  function View(s: State, c: nat): Tables
    requires c in s.calls && s.calls[c].tx.Some?
  {
    Merge(s.db, s.calls[c].tx.value)
  }

  function OnConsume(db: Tables, call: Call, w: Tables): Call
    requires call.job.Exchange?
  {
    if call.job.jti in db.consumed || call.job.jti in w.consumed then call.(at := ReplayCommitting)
    else
      call.(tx := Some(w.(consumed := w.consumed[call.job.jti := call.job.pair])),
            at := if call.joined then OwnerInserting else JtiCommitting)
  }

  function OnInsertOwner(call: Call, w: Tables, id: string): Call
  {
    call.(tx := Some(w.(owners := w.owners + {id})), at := IdentityInserting(id))
  }

  function OnInsertIdentity(db: Tables, call: Call, w: Tables, o: string): Call
  {
    if call.job.pair in db.identities || call.job.pair in w.identities then call.(at := OwnerDeleting(o))
    else call.(tx := Some(w.(identities := w.identities[call.job.pair := o])), at := OwnerSelecting(o))
  }

  function OnDeleteOwner(call: Call, w: Tables, o: string): Call
  {
    call.(tx := Some(w.(owners := w.owners - {o})), at := IdentityUpdating)
  }

  /** No row to update is an error, and an error rolls back. */
  function OnUpdateIdentity(call: Call, view: Tables): Call
  {
    if call.job.pair in view.identities then
      call.(locked := true, at := OwnerUpdating(view.identities[call.job.pair])) else RolledBack(call)
  }

  function OnUpdateOwner(call: Call, view: Tables, o: string): Call
  {
    if o in view.owners then call.(at := Return(call, Found(o, false))) else RolledBack(call)
  }

  function OnSelectOwner(call: Call, view: Tables, o: string): Call
  {
    if o in view.owners then call.(at := Return(call, Found(o, true))) else RolledBack(call)
  }

  /** The foreign key wants the owner's row. */
  function OnInsertSession(call: Call, view: Tables, w: Tables, id: string, found: Found): Call
    requires call.job.Exchange?
  {
    if found.ownerId !in view.owners then RolledBack(call)
    else
      call.(tx := Some(w.(sessions := w.sessions[id := Session(found.ownerId, call.job.jti)])),
            at := SessionCommitting(found, id))
  }

  function RolledBack(call: Call): Call
  {
    call.(tx := None, locked := false, at := Done(Failed))
  }

  predicate IsCommitting(p: Place)
  {
    p.JtiCommitting? || p.ReplayCommitting? || p.OwnerCommitting? || p.ResolveCommitting? || p.SessionCommitting?
  }

  function AfterCommit(p: Place): Place
  {
    match p
    case JtiCommitting => OwnerInserting
    case ReplayCommitting => Done(Replay)
    case OwnerCommitting(f) => SessionInserting(f)
    case ResolveCommitting(f) => Done(Resolved(f))
    case SessionCommitting(f, id) => Done(SignedIn(f, id))
    case _ => Done(Failed)
  }

  /** The owner a transaction that commits has found or made. */
  function FoundAt(p: Place): Option<Found>
  {
    match p
    case OwnerCommitting(f) => Some(f)
    case ResolveCommitting(f) => Some(f)
    case SessionCommitting(f, _) => Some(f)
    case _ => None
  }

  function OnCommit(s: State, c: nat, call: Call, seen: bool): State
    requires call.tx.Some?
  {
    var found := FoundAt(call.at);
    State(Merge(s.db, call.tx.value),
          s.calls[c := call.(tx := None, locked := false, at := if seen then AfterCommit(call.at) else Done(Failed))],
          s.next,
          if found.Some? then s.resolved[c := found.value] else s.resolved)
  }

  // ----- waiting -----

  function Held(s: State, d: nat): Tables
  {
    if d in s.calls && s.calls[d].tx.Some? then s.calls[d].tx.value else NOTHING
  }

  ghost predicate FreeJti(s: State, c: nat, jti: string)
  {
    forall d :: d in s.calls && d != c ==> jti !in Held(s, d).consumed
  }

  ghost predicate FreePair(s: State, c: nat, pair: Pair)
  {
    forall d :: d in s.calls && d != c ==> pair !in Held(s, d).identities
  }

  ghost predicate FreeOwner(s: State, c: nat, id: string)
  {
    forall d :: d in s.calls && d != c ==> id !in Held(s, d).owners
  }

  ghost predicate FreeSession(s: State, c: nat, id: string)
  {
    forall d :: d in s.calls && d != c ==> id !in Held(s, d).sessions
  }

  ghost predicate FreeRow(s: State, c: nat, pair: Pair)
  {
    forall d :: d in s.calls && d != c && s.calls[d].locked ==> s.calls[d].job.pair != pair
  }

  predicate Open(s: State, c: nat)
  {
    c in s.calls && s.calls[c].tx.Some?
  }

  /** A primary key that is taken is an error, so the step that goes on needs a new one. */
  ghost predicate Enabled(s: State, l: Step)
  {
    match l
    case Submit(_, _) => true
    case Begin(c) => c in s.calls && s.calls[c].tx.None? && !s.calls[c].at.Done?
    case Consume(c) =>
      Open(s, c) && s.calls[c].at.Consuming? && s.calls[c].job.Exchange? && FreeJti(s, c, s.calls[c].job.jti)
    case InsertOwner(c, id) =>
      Open(s, c) && s.calls[c].at.OwnerInserting? && FreeOwner(s, c, id) && id !in View(s, c).owners
    case InsertIdentity(c) => Open(s, c) && s.calls[c].at.IdentityInserting? && FreePair(s, c, s.calls[c].job.pair)
    case DeleteOwner(c) => Open(s, c) && s.calls[c].at.OwnerDeleting?
    case UpdateIdentity(c) => Open(s, c) && s.calls[c].at.IdentityUpdating? && FreeRow(s, c, s.calls[c].job.pair)
    case UpdateOwner(c) => Open(s, c) && s.calls[c].at.OwnerUpdating?
    case SelectOwner(c) => Open(s, c) && s.calls[c].at.OwnerSelecting?
    case InsertSession(c, id) =>
      Open(s, c) && s.calls[c].at.SessionInserting? && s.calls[c].job.Exchange? && FreeSession(s, c, id)
      && id !in View(s, c).sessions
    case Commit(c, _) => Open(s, c) && IsCommitting(s.calls[c].at)
    case Fail(c) => c in s.calls && !s.calls[c].at.Done?
  }

  function Do(s: State, l: Step): State
    requires Enabled(s, l)
  {
    match l
    case Submit(job, joined) =>
      var call := Call(job, joined, None, false, if job.Exchange? then Consuming else OwnerInserting);
      s.(calls := s.calls[s.next := call], next := s.next + 1)
    case Begin(c) => Put(s, c, s.calls[c].(tx := Some(NOTHING)))
    case Consume(c) => Put(s, c, OnConsume(s.db, s.calls[c], s.calls[c].tx.value))
    case InsertOwner(c, id) => Put(s, c, OnInsertOwner(s.calls[c], s.calls[c].tx.value, id))
    case InsertIdentity(c) => Put(s, c, OnInsertIdentity(s.db, s.calls[c], s.calls[c].tx.value, s.calls[c].at.o))
    case DeleteOwner(c) => Put(s, c, OnDeleteOwner(s.calls[c], s.calls[c].tx.value, s.calls[c].at.o))
    case UpdateIdentity(c) => Put(s, c, OnUpdateIdentity(s.calls[c], View(s, c)))
    case UpdateOwner(c) => Put(s, c, OnUpdateOwner(s.calls[c], View(s, c), s.calls[c].at.o))
    case SelectOwner(c) => Put(s, c, OnSelectOwner(s.calls[c], View(s, c), s.calls[c].at.o))
    case InsertSession(c, id) =>
      Put(s, c, OnInsertSession(s.calls[c], View(s, c), s.calls[c].tx.value, id, s.calls[c].at.found))
    case Commit(c, seen) => OnCommit(s, c, s.calls[c], seen)
    case Fail(c) => Put(s, c, RolledBack(s.calls[c]))
  }

  /** A run from the empty database: a list of steps, each enabled after the ones before it. */
  ghost predicate Legal(ls: seq<Step>)
    decreases |ls|, 0
  {
    ls == [] || (Legal(ls[..|ls| - 1]) && Enabled(After(ls[..|ls| - 1]), ls[|ls| - 1]))
  }

  ghost function After(ls: seq<Step>): State
    requires Legal(ls)
    decreases |ls|, 1
  {
    if ls == [] then START else Do(After(ls[..|ls| - 1]), ls[|ls| - 1])
  }
}

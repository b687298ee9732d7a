/** What every state of the exchange satisfies, committed rows and open transactions alike. */
module ExchangeInvariant {
  import opened Results
  import opened Owners
  import opened ExchangeMachine

  // ----- what a call has written -----

  function NewOwner(pair: Pair, o: string): Tables
  {
    Tables({o}, map[pair := o], map[], map[])
  }

  /** The rows of an owner found or made. */
  function OwnerRows(call: Call, f: Found): Tables
  {
    if f.created then NewOwner(call.job.pair, f.ownerId) else NOTHING
  }

  function JtiRow(call: Call): Tables
  {
    if call.job.Exchange? then Tables({}, map[], map[call.job.jti := call.job.pair], map[]) else NOTHING
  }

  /** What an earlier store call left in the open transaction. */
  function Carried(call: Call): Tables
  {
    if call.joined then JtiRow(call) else NOTHING
  }

  /** The rows of the open transaction, read off the place of the call. */
  function Wrote(call: Call): Tables
  {
    match call.at
    case Consuming => NOTHING
    case OwnerInserting => Carried(call)
    case IdentityInserting(o) => Merge(Carried(call), Tables({o}, map[], map[], map[]))
    case OwnerDeleting(o) => Merge(Carried(call), Tables({o}, map[], map[], map[]))
    case IdentityUpdating => Carried(call)
    case OwnerUpdating(_) => Carried(call)
    case OwnerSelecting(o) => Merge(Carried(call), NewOwner(call.job.pair, o))
    case SessionInserting(f) => if call.joined then Merge(Carried(call), OwnerRows(call, f)) else NOTHING
    case JtiCommitting => JtiRow(call)
    case ReplayCommitting => NOTHING
    case OwnerCommitting(f) => OwnerRows(call, f)
    case ResolveCommitting(f) => Merge(Carried(call), OwnerRows(call, f))
    case SessionCommitting(f, id) =>
      Merge(if call.joined then Merge(Carried(call), OwnerRows(call, f)) else NOTHING, SessionRow(call, f, id))
    case Done(_) => NOTHING
  }

  function SessionRow(call: Call, f: Found, id: string): Tables
  {
    if call.job.Exchange? then Tables({}, map[], map[], map[id := Session(f.ownerId, call.job.jti)]) else NOTHING
  }

  /** The places a call of this kind can be at. */
  predicate Shape(call: Call)
  {
    && (call.at.Consuming? || call.at.SessionInserting? || call.at.ReplayCommitting? || call.at.SessionCommitting? ==>
      call.job.Exchange?)
    && (call.at.JtiCommitting? || call.at.OwnerCommitting? ==> call.job.Exchange? && !call.joined)
    && (call.at.ResolveCommitting? ==> call.job.Resolve?)
  }

  /** Between transactions: at the start, or between two store calls that did not join. */
  predicate MayBegin(call: Call)
  {
    call.at.Consuming? || (call.at.OwnerInserting? && (call.job.Exchange? ==> !call.joined))
    || (call.at.SessionInserting? && !call.joined)
  }

  // ----- what a call knows -----

  /** It has its assertion's jti, in the open transaction or committed, and is not over. */
  predicate Past(call: Call)
  {
    call.job.Exchange? && !call.at.Consuming? && !call.at.Done? && !call.at.ReplayCommitting?
  }

  predicate JtiCommitted(call: Call)
  {
    Past(call) && !call.joined && !call.at.JtiCommitting?
  }

  /** The owner row its place speaks of. */
  function Claimed(call: Call): Option<Found>
  {
    if call.at.SessionInserting? then Some(call.at.found) else FoundAt(call.at)
  }

  predicate Maps(t: Tables, pair: Pair, o: string)
  {
    pair in t.identities && t.identities[pair] == o
  }

  predicate Knows(db: Tables, w: Tables, call: Call)
  {
    && (call.at.OwnerDeleting? || call.at.IdentityUpdating? ==> call.job.pair in db.identities)
    && (call.at.OwnerUpdating? ==> Maps(db, call.job.pair, call.at.o))
    && (Claimed(call).Some? ==> Maps(Merge(db, w), call.job.pair, Claimed(call).value.ownerId))
    && (JtiCommitted(call) ==> call.job.jti in db.consumed && db.consumed[call.job.jti] == call.job.pair)
  }

  /** No key of one is a key of the other. */
  predicate Apart(a: Tables, b: Tables)
  {
    a.owners !! b.owners && a.identities.Keys !! b.identities.Keys && a.consumed.Keys !! b.consumed.Keys
    && a.sessions.Keys !! b.sessions.Keys
  }

  function Rows(call: Call): Tables
  {
    if call.tx.Some? then call.tx.value else NOTHING
  }

  ghost predicate NoSession(db: Tables, jti: string)
  {
    forall id :: id in db.sessions ==> db.sessions[id].jti != jti
  }

  /** An unjoined exchange on its last store call has its owner on record; no other unfinished call has. */
  predicate OnRecord(resolved: map<nat, Found>, c: nat, call: Call)
  {
    if call.at.Done? then true
    else if (call.at.SessionInserting? || call.at.SessionCommitting?) && !call.joined then
      c in resolved && resolved[c] == call.at.found
    else c !in resolved
  }

  ghost predicate CallOk(db: Tables, resolved: map<nat, Found>, c: nat, call: Call)
  {
    && Shape(call)
    && (call.tx.Some? ==> call.tx.value == Wrote(call) && !call.at.Done?)
    && (call.tx.None? ==> (call.at.Done? || MayBegin(call)) && !call.locked)
    && Apart(db, Rows(call))
    && Knows(db, Rows(call), call)
    && (Past(call) ==> NoSession(db, call.job.jti))
    && OnRecord(resolved, c, call)
    && (call.locked ==>
      !call.at.Consuming? && !call.at.OwnerInserting? && !call.at.IdentityInserting?
      && !call.at.OwnerDeleting? && !call.at.IdentityUpdating?)
  }

  // ----- the committed rows -----

  /** Owners and identities are one to one: no owner without an identity, none with two. */
  ghost predicate OwnersOk(db: Tables)
  {
    && (forall p :: p in db.identities ==> db.identities[p] in db.owners)
    && (forall o :: o in db.owners ==> exists p :: Maps(db, p, o))
    && (forall p, q :: p in db.identities && q in db.identities && db.identities[p] == db.identities[q] ==> p == q)
  }

  /** A session belongs to the owner its assertion names, and to an assertion that is consumed. */
  predicate SessionOk(db: Tables, id: string)
    requires id in db.sessions
  {
    db.sessions[id].jti in db.consumed && Maps(db, db.consumed[db.sessions[id].jti], db.sessions[id].ownerId)
  }

  ghost predicate SessionsOk(db: Tables)
  {
    && (forall id :: id in db.sessions ==> SessionOk(db, id))
    && (forall a, b :: a in db.sessions && b in db.sessions && db.sessions[a].jti == db.sessions[b].jti ==> a == b)
  }

  predicate HasSession(db: Tables, jti: string, id: string)
  {
    id in db.sessions && db.sessions[id].jti == jti
  }

  /** An exchange of this assertion that was not put in one transaction. */
  predicate Unjoined(calls: map<nat, Call>, jti: string, c: nat)
  {
    c in calls && calls[c].job.Exchange? && calls[c].job.jti == jti && !calls[c].joined
  }

  /** A consumed assertion has its session, unless an exchange of it was not put in one transaction. */
  ghost predicate Honoured(db: Tables, calls: map<nat, Call>, jti: string)
  {
    (exists id :: HasSession(db, jti, id)) || exists c :: Unjoined(calls, jti, c)
  }

  ghost predicate JtisOk(db: Tables, calls: map<nat, Call>)
  {
    forall jti :: jti in db.consumed ==> Honoured(db, calls, jti)
  }

  predicate Creator(s: State, p: Pair, c: nat)
  {
    c in s.resolved && s.resolved[c].created && c in s.calls && s.calls[c].job.pair == p
  }

  /** Every call that resolved was given the owner its pair maps to. */
  ghost predicate GivenOwners(s: State)
  {
    forall c :: c in s.resolved ==> c in s.calls && Maps(s.db, s.calls[c].job.pair, s.resolved[c].ownerId)
  }

  ghost predicate EachCreated(s: State)
  {
    forall p :: p in s.db.identities ==> exists c :: Creator(s, p, c)
  }

  ghost predicate CreatedByOne(s: State)
  {
    forall p, c, d :: Creator(s, p, c) && Creator(s, p, d) ==> c == d
  }

  ghost predicate RecordOk(s: State)
  {
    GivenOwners(s) && EachCreated(s) && CreatedByOne(s)
  }

  ghost predicate CallsApart(a: Call, b: Call)
  {
    Apart(Rows(a), Rows(b)) && (Past(a) && Past(b) ==> a.job.jti != b.job.jti)
  }

  ghost predicate CallsInv(s: State)
  {
    forall c :: c in s.calls ==> c < s.next && CallOk(s.db, s.resolved, c, s.calls[c])
  }

  ghost predicate ApartInv(s: State)
  {
    forall c, d :: c in s.calls && d in s.calls && c != d ==> CallsApart(s.calls[c], s.calls[d])
  }

  ghost predicate Inv(s: State)
  {
    CallsInv(s) && ApartInv(s) && OwnersOk(s.db) && SessionsOk(s.db) && RecordOk(s) && JtisOk(s.db, s.calls)
  }
}

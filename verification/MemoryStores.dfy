/** packages/digi-bridge/src/stores.ts: the owner, replay and session stores kept in memory. */
module MemoryStores {
  import opened Results
  import opened Owners

  // ----- the key of a pair -----

  const NUL: char := '\0'

  function Key(p: Pair): string
  {
    p.issuer + [NUL] + p.subject
  }

  lemma FirstNul(a: string, b: string, x: string, y: string)
    requires NUL !in a && NUL !in b && a + [NUL] + x == b + [NUL] + y
    ensures a == b && x == y
  {
    var k := a + [NUL] + x;
    assert k[|a|] == NUL && k[|b|] == NUL;
    assert forall i :: 0 <= i < |a| ==> k[i] == a[i];
    assert forall i :: 0 <= i < |b| ==> k[i] == b[i];
    assert |a| == |b|;
    assert a == k[..|a|] && b == k[..|b|];
    assert x == k[|a| + 1..] && y == k[|b| + 1..];
  }

  /** Pairs whose issuers hold no NUL have different keys. */
  lemma KeysDiffer(p: Pair, q: Pair)
    requires NUL !in p.issuer && NUL !in q.issuer && Key(p) == Key(q)
    ensures p == q
  {
    FirstNul(p.issuer, q.issuer, p.subject, q.subject);
  }

  /** Reading another NUL of a key as its separator gives another pair. */
  lemma SplitElsewhere(k: string, i: nat)
    requires i < |k| && k[i] == NUL
    ensures Key(Pair(k[..i], k[i + 1..])) == k
  {
  }

  lemma SeparatorAt(p: Pair)
    ensures Key(p)[|p.issuer|] == NUL
  {
  }

  lemma OnlyNul(p: Pair, i: nat)
    requires NUL !in p.issuer && NUL !in p.subject && i < |Key(p)| && Key(p)[i] == NUL
    ensures i == |p.issuer|
  {
    var k := Key(p);
    assert forall j :: 0 <= j < |p.issuer| ==> k[j] == p.issuer[j];
    assert forall j :: |p.issuer| < j < |k| ==> k[j] == p.subject[j - |p.issuer| - 1];
  }

  /** A key belongs to one pair only exactly when no NUL hides in the pair: any NUL can be read as the separator. */
  lemma KeyIsUnique(p: Pair)
    ensures (forall q :: Key(q) == Key(p) ==> q == p) <==> NUL !in p.issuer && NUL !in p.subject
  {
    var k := Key(p);
    if i :| 0 <= i < |p.issuer| && p.issuer[i] == NUL {
      SplitElsewhere(k, i);
      assert |Pair(k[..i], k[i + 1..]).issuer| != |p.issuer|;
    } else if j :| 0 <= j < |p.subject| && p.subject[j] == NUL {
      var i := |p.issuer| + 1 + j;
      SplitElsewhere(k, i);
      assert |Pair(k[..i], k[i + 1..]).issuer| != |p.issuer|;
    } else {
      forall q | Key(q) == Key(p) ensures q == p {
        SeparatorAt(q);
        OnlyNul(p, |q.issuer|);
        assert q.issuer == k[..|p.issuer|] && q.subject == k[|p.issuer| + 1..];
        assert p.issuer == k[..|p.issuer|] && p.subject == k[|p.issuer| + 1..];
      }
    }
  }

  // ----- owners -----

  class DigiOwner {
    const id: string
    const createdAt: int
    var updatedAt: int

    constructor (id: string, now: int)
      ensures this.id == id && createdAt == now && updatedAt == now
    {
      this.id, createdAt, updatedAt := id, now, now;
    }
  }

  class ExternalIdentity {
    const id: string
    const ownerId: string
    const pair: Pair
    const createdAt: int
    var lastSeenAt: int

    constructor (id: string, ownerId: string, pair: Pair, now: int)
      ensures this.id == id && this.ownerId == ownerId && this.pair == pair && createdAt == now && lastSeenAt == now
    {
      this.id, this.ownerId, this.pair, createdAt, lastSeenAt := id, ownerId, pair, now, now;
    }
  }

  /** Each identity has an owner, each owner one identity. */
  ghost predicate OneToOne(byKey: map<string, ExternalIdentity>, owners: map<string, DigiOwner>)
  {
    && (forall k :: k in byKey ==> byKey[k].ownerId in owners && k == Key(byKey[k].pair))
    && (forall o :: o in owners ==> owners[o].id == o && exists k :: k in byKey && byKey[k].ownerId == o)
    && (forall j, k :: j in byKey && k in byKey && byKey[j].ownerId == byKey[k].ownerId ==> j == k)
  }

  lemma AddKeepsOneToOne(
      byKey: map<string, ExternalIdentity>, owners: map<string, DigiOwner>, identity: ExternalIdentity,
      owner: DigiOwner)
    requires OneToOne(byKey, owners) && Key(identity.pair) !in byKey && owner.id !in owners
    requires identity.ownerId == owner.id
    ensures OneToOne(byKey[Key(identity.pair) := identity], owners[owner.id := owner])
  {
    var after := byKey[Key(identity.pair) := identity];
    var both := owners[owner.id := owner];
    hide Key;
    forall o | o in both ensures exists k :: k in after && after[k].ownerId == o {
      if o == owner.id {
        assert Key(identity.pair) in after;
      } else {
        var k :| k in byKey && byKey[k].ownerId == o;
        assert k in after;
      }
    }
  }

  lemma OwnerOf(byKey: map<string, ExternalIdentity>, owners: map<string, DigiOwner>, k: string)
    requires OneToOne(byKey, owners) && k in byKey
    ensures byKey[k].ownerId in owners && owners[byKey[k].ownerId].id == byKey[k].ownerId
    ensures forall j :: j in byKey && j != k ==> byKey[j] != byKey[k]
    ensures forall o :: o in owners && o != byKey[k].ownerId ==> owners[o] != owners[byKey[k].ownerId]
  {
  }

  class MemoryOwnerStore {
    var byKey: map<string, ExternalIdentity>
    var owners: map<string, DigiOwner>

    ghost predicate Valid()
      reads this
    {
      OneToOne(byKey, owners)
    }

    /** The owner each key maps to. */
    ghost function Known(): map<string, string>
      reads this
    {
      map k | k in byKey :: byKey[k].ownerId
    }

    constructor ()
      ensures Valid() && Known() == map[]
    {
      byKey, owners := map[], map[];
    }

    /** The critical section of `resolveOrCreate`; the random identifiers are parameters, the owner's a new one. */
    method ResolveOrCreate(pair: Pair, now: int, newOwner: string, newIdentity: string)
      returns (owner: DigiOwner, created: bool, identity: ExternalIdentity)
      requires Valid() && newOwner !in owners
      modifies this, byKey.Values, owners.Values
      ensures Valid() && (Known(), Found(owner.id, created)) == Locked(old(Known()), Key(pair), newOwner)
      ensures Key(pair) in byKey && byKey[Key(pair)] == identity && owner.id in owners && owners[owner.id] == owner
      ensures identity.ownerId == owner.id && identity.lastSeenAt == now && owner.updatedAt == now
      ensures forall k :: k in old(byKey) ==>
        k in byKey && byKey[k] == old(byKey[k]) && (k != Key(pair) ==> unchanged(byKey[k]))
      ensures forall o :: o in old(owners) ==>
        o in owners && owners[o] == old(owners[o]) && (o != owner.id ==> unchanged(owners[o]))
      ensures created ==> fresh(owner) && fresh(identity) && identity.pair == pair
    {
      hide Key, OneToOne;
      var k := Key(pair);
      if k in byKey {
        OwnerOf(byKey, owners, k);
        identity, created := byKey[k], false;
        identity.lastSeenAt := now;
        owner := owners[identity.ownerId];
        owner.updatedAt := now;
        assert Known() == old(Known());
      } else {
        owner := new DigiOwner(newOwner, now);
        identity := new ExternalIdentity(newIdentity, newOwner, pair, now);
        AddKeepsOneToOne(byKey, owners, identity, owner);
        owners := owners[newOwner := owner];
        byKey := byKey[k := identity];
        created := true;
        assert Known() == old(Known())[k := newOwner];
      }
    }
  }

  // ----- the keyed store and the paired one -----

  /** A keyed map and a map of pairs that say the same, for pairs whose issuers hold no NUL. */
  ghost predicate Agree(known: map<string, string>, m: map<Pair, string>)
  {
    && (forall p :: p in m ==> NUL !in p.issuer && Key(p) in known && known[Key(p)] == m[p])
    && (forall k :: k in known ==> exists p :: p in m && Key(p) == k)
  }

  /**
   On such issuers the memory store answers as the locked store on pairs does, which is what the database
   commits do.
   */
  lemma KeyedIsPaired(known: map<string, string>, m: map<Pair, string>, pair: Pair, newOwner: string)
    requires Agree(known, m) && NUL !in pair.issuer
    ensures Locked(known, Key(pair), newOwner).1 == Locked(m, pair, newOwner).1
    ensures Agree(Locked(known, Key(pair), newOwner).0, Locked(m, pair, newOwner).0)
  {
    if Key(pair) in known {
      var p :| p in m && Key(p) == Key(pair);
      KeysDiffer(p, pair);
    } else {
      var after, n := known[Key(pair) := newOwner], m[pair := newOwner];
      forall k | k in after ensures exists p :: p in n && Key(p) == k {
        if k in known {
          var p :| p in m && Key(p) == k;
          assert p in n;
        } else {
          assert pair in n;
        }
      }
    }
  }

  /** Another issuer's NUL makes two pairs one: the second is given the first one's owner. */
  lemma NulMergesOwners(pair: Pair, other: Pair, newOwner: string, later: string)
    requires Key(pair) == Key(other)
    ensures var (known, first) := Locked(map[], Key(pair), newOwner);
      Locked(known, Key(other), later).1 == Found(first.ownerId, false)
    ensures pair != other ==> NUL in pair.issuer || NUL in pair.subject
  {
    KeyIsUnique(pair);
  }

  // ----- replay -----

  datatype Consumption = Consumption(pair: Pair, expiresAt: int)

  class MemoryReplayStore {
    var consumed: map<string, Consumption>

    constructor ()
      ensures consumed == map[]
    {
      consumed := map[];
    }

    /** The critical section of `tryConsume`: the first call for a jti wins and its row stays. */
    method TryConsume(jti: string, pair: Pair, expiresAt: int) returns (first: bool)
      modifies this
      ensures first <==> jti !in old(consumed)
      ensures consumed == if first then old(consumed)[jti := Consumption(pair, expiresAt)] else old(consumed)
    {
      if jti in consumed { return false; }
      consumed := consumed[jti := Consumption(pair, expiresAt)];
      return true;
    }
  }

  // ----- sessions -----

  class DigiSession {
    const id: string
    const ownerId: string
    const tokenHash: string
    const expiresAt: int
    const createdAt: int
    var revokedAt: Option<int>

    constructor (id: string, ownerId: string, tokenHash: string, expiresAt: int, createdAt: int)
      ensures this.id == id && this.ownerId == ownerId && this.tokenHash == tokenHash
      ensures this.expiresAt == expiresAt && this.createdAt == createdAt && revokedAt == None
    {
      this.id, this.ownerId, this.tokenHash := id, ownerId, tokenHash;
      this.expiresAt, this.createdAt := expiresAt, createdAt;
      revokedAt := None;
    }
  }

  /** Two indexes over the same session objects; `hash` stands for `hashSessionToken`. */
  class MemorySessionStore {
    const hash: string -> string
    var byHash: map<string, DigiSession>
    var byId: map<string, DigiSession>

    ghost predicate Valid()
      reads this
    {
      && (forall h :: h in byHash ==>
        byHash[h].tokenHash == h && byHash[h].id in byId && byId[byHash[h].id] == byHash[h])
      && (forall i :: i in byId ==>
        byId[i].id == i && byId[i].tokenHash in byHash && byHash[byId[i].tokenHash] == byId[i])
    }

    constructor (hash: string -> string)
      ensures Valid() && byHash == map[] && this.hash == hash
    {
      this.hash := hash;
      byHash, byId := map[], map[];
    }

    function Resolve(token: string, now: int): Option<DigiSession>
      reads this, byHash.Values
    {
      if hash(token) !in byHash then None
      else
        var session := byHash[hash(token)];
        if session.revokedAt.Some? || session.expiresAt < now then None else Some(session)
    }

    /** The random token and identifier are parameters; neither they nor the token's hash were used before. */
    method Create(ownerId: string, ttlSeconds: int, token: string, id: string, now: int) returns (session: DigiSession)
      requires Valid() && hash(token) !in byHash && id !in byId
      modifies this
      ensures Valid() && fresh(session) && session.id == id && session.ownerId == ownerId
      ensures forall t :: Resolve(token, t) == if t <= now + ttlSeconds * 1000 then Some(session) else None
      ensures forall x, t :: hash(x) != hash(token) ==> Resolve(x, t) == old(Resolve(x, t))
    {
      session := new DigiSession(id, ownerId, hash(token), now + ttlSeconds * 1000, now);
      byHash := byHash[session.tokenHash := session];
      byId := byId[session.id := session];
    }

    /**
     A revocation found through one index is seen through the other, at every later moment, and by no other
     session.
     */
    method Revoke(sessionId: string, now: int)
      requires Valid()
      modifies byId.Values
      ensures Valid()
      ensures forall x, t :: hash(x) in byHash && byHash[hash(x)].id == sessionId ==> Resolve(x, t) == None
      ensures forall x, t :: hash(x) !in byHash || byHash[hash(x)].id != sessionId ==>
        Resolve(x, t) == old(Resolve(x, t))
    {
      if sessionId in byId { byId[sessionId].revokedAt := Some(now); }
    }
  }
}

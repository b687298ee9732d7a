/** What one step of one call leaves alone. */
module AuthorityFrames {
  import opened JsValues
  import opened Results
  import opened AuthorityTypes
  import opened Policy
  import opened Tokens
  import opened Grants
  import opened StoreSteps
  import opened AuthorityMachine

  ghost predicate SameAt<T>(a: map<nat, T>, b: map<nat, T>, u: nat)
  {
    (u in a <==> u in b) && (u in a ==> a[u] == b[u])
  }

  /** Call `u` stands where it stood, and nothing new is on record about it. */
  ghost predicate Untouched(a: State, b: State, u: nat)
  {
    && SameAt(a.tasks, b.tasks, u) && SameAt(a.h.answers, b.h.answers, u) && SameAt(a.h.resolutions, b.h.resolutions, u)
    && SameAt(a.h.uses, b.h.uses, u) && SameAt(a.h.issued, b.h.issued, u)
    && (u in a.h.decided <==> u in b.h.decided) && (u in a.h.oks <==> u in b.h.oks)
    && SameAt(a.h.authorized, b.h.authorized, u) && SameAt(a.h.callers, b.h.callers, u)
  }

  lemma ApplyIsLocal(s: State, t: nat, e: Effect, u: nat)
    requires u != t
    ensures Untouched(s, Apply(s, t, e), u)
  {
  }

  /** The terms of a grant are all but its status, when it was revoked, and its count. */
  function Terms(g: Grant): Grant
  {
    g.(status := ACTIVE, usageCount := 0, revokedAt := None)
  }

  /** What was asked for: a request but for how it was resolved. */
  function Asking(r: Request): Request
  {
    r.(status := PENDING, grantId := None, resolvedAt := None)
  }

  predicate StatusMoves(a: Status, b: Status)
  {
    a == b || (a == ACTIVE && (b == CONSUMED || b == REVOKED)) || (a == CONSUMED && b == REVOKED)
  }

  /** One grant at two moments: the same terms, a status further along, a count no lower. */
  predicate GrantMoves(a: Grant, b: Grant)
  {
    Terms(a) == Terms(b) && StatusMoves(a.status, b.status) && a.usageCount <= b.usageCount
  }

  /** Grants and requests are never dropped and keep their terms, and a resolved request stays as it is. */
  ghost predicate StoreGrows(a: Store, b: Store)
  {
    && (forall id :: id in a.grants ==> id in b.grants && GrantMoves(a.grants[id], b.grants[id]))
    && (forall id :: id in a.requests ==> id in b.requests && Asking(a.requests[id]) == Asking(b.requests[id])
                                          && (a.requests[id].status != PENDING ==> b.requests[id] == a.requests[id]))
  }

  lemma GrantWriteGrows(s: Store, g: Grant)
    requires g.id !in s.grants
    ensures StoreGrows(s, CreateGrant(s, g))
  {
  }

  lemma RevokeGrows(s: Store, id: string, at: Option<Option<Date>>)
    requires id in s.grants ==> StatusMoves(s.grants[id].status, REVOKED)
    ensures StoreGrows(s, UpdateGrantStatus(s, id, REVOKED, at))
  {
  }

  lemma RequestWriteGrows(s: Store, r: Request)
    requires r.id !in s.requests
    ensures StoreGrows(s, CreateRequest(s, r))
  {
  }

  lemma ResolveGrows(s: Store, id: string, status: Status, grantId: Option<string>, now: int)
    requires id in s.requests ==> s.requests[id].status == PENDING
    ensures StoreGrows(s, ResolveRequest(s, id, status, grantId, now))
  {
  }

  lemma GrowsComposes(a: Store, b: Store, c: Store)
    requires StoreGrows(a, b) && StoreGrows(b, c)
    ensures StoreGrows(a, c)
  {
    forall id | id in a.grants ensures id in c.grants && GrantMoves(a.grants[id], c.grants[id]) {
      assert GrantMoves(a.grants[id], b.grants[id]) && GrantMoves(b.grants[id], c.grants[id]);
    }
  }
}

/** A step that does what it owes keeps the invariant. */
module AuthorityKeeps {
  import opened JsValues
  import opened Results
  import opened AuthorityTypes
  import opened Policy
  import opened Claims
  import opened Tokens
  import opened Grants
  import opened StoreSteps
  import opened AuthorityMachine
  import opened AuthorityFrames
  import opened AuthorityLanes
  import opened AuthorityInvariant

  // ----- facts about terms -----

  lemma PermitsTerms(g: Grant, h: Grant, e: Expectation)
    requires Terms(g) == Terms(h)
    ensures Permits(g, e) <==> Permits(h, e)
  {
    hide CountLimits, Names;
  }

  lemma IssueKept(a: State, b: State, i: Issue)
    requires StoreGrows(a.store, b.store) && IssueOk(a, i)
    ensures IssueOk(b, i)
  {
    hide Seconds;
  }

  lemma AnswerKept(env: Env, a: State, b: State, input: CheckInput, answer: Answer)
    requires StoreGrows(a.store, b.store) && AnswerOk(env, a, input, answer)
    ensures AnswerOk(env, b, input, answer)
  {
    hide Decide, SelfOwned, Allowing;
  }

  lemma BacksKept(a: State, b: State, u: Use, c: Claims)
    requires StoreGrows(a.store, b.store) && Backs(a, u, c)
    ensures Backs(b, u, c)
  {
    hide Says;
  }

  // ----- other calls -----

  lemma UnresolvedKept(env: Env, s: State, t: nat, e: Effect, u: nat, req: Request)
    requires LanesInv(s) && StoreGrows(s.store, e.store) && RequestsFit(env, s, t, e)
    requires u != t && Running(s, u, req.id) && Unresolved(s, req)
    ensures Unresolved(Apply(s, t, e), req)
  {
    hide RequestOk, Noted, MoveLanes;
    if Running(s, t, req.id) { OneRuns(s, t, u, req.id); }
  }

  lemma ForRequestKept(s: State, t: nat, e: Effect, req: Request, g: Grant)
    requires StoreGrows(s.store, e.store) && NotesFit(s, t, e) && ForRequest(s, req, g)
    ensures ForRequest(Apply(s, t, e), req, g)
  {
    hide MoveLanes, Terms, Holds;
  }

  /** What another call is cut off from is not what this one holds. */
  lemma OrphanIsOwn(s: State, t: nat, e: Effect, u: nat, req: Request, g: Grant)
    requires LanesInv(s) && NotesFit(s, t, e) && u != t && u in s.tasks && s.tasks[u] == ApproveResolving(req, g)
    requires ForRequest(s, req, g) && g.id !in s.h.orphans
    requires t in s.tasks && s.tasks[t].ApproveResolving? ==> ForRequest(s, s.tasks[t].req, s.tasks[t].grant)
    ensures g.id !in Apply(s, t, e).h.orphans
  {
    hide MoveLanes, LanesInv, Copy;
    if e.notes.orphan == Some(g.id) { OneRuns(s, t, u, req.id); }
  }

  /** The request as a call past the queue holds it, and the grant made for it. */
  ghost predicate HeldOk(s: State, task: Task)
  {
    match task
    case DenyWriting(req) => Unresolved(s, req)
    case StepUpDenying(req) => Unresolved(s, req)
    case ApproveCreating(req, _, _) => Unresolved(s, req)
    case ApproveResolving(req, g) => Unresolved(s, req) && ForRequest(s, req, g) && g.id !in s.h.orphans
    case ApproveMinting(req, g) => ForRequest(s, req, g)
    case _ => true
  }

  lemma HeldIs(s: State, task: Task)
    ensures match task
      case DenyWriting(req) => HeldOk(s, task) <==> Unresolved(s, req)
      case StepUpDenying(req) => HeldOk(s, task) <==> Unresolved(s, req)
      case ApproveCreating(req, _, _) => HeldOk(s, task) <==> Unresolved(s, req)
      case ApproveResolving(req, g) =>
        HeldOk(s, task) <==> Unresolved(s, req) && ForRequest(s, req, g) && g.id !in s.h.orphans
      case ApproveMinting(req, g) => HeldOk(s, task) <==> ForRequest(s, req, g)
      case _ => HeldOk(s, task)
  {
  }

  predicate PastQueue(task: Task)
  {
    task.DenyWriting? || task.StepUpDenying? || task.ApproveCreating? || task.ApproveResolving?
  }

  lemma PastQueueRuns(s: State, u: nat)
    requires u in s.tasks && PastQueue(s.tasks[u])
    ensures Running(s, u, s.tasks[u].req.id)
  {
  }

  lemma HeldKept(env: Env, s: State, t: nat, e: Effect, u: nat)
    requires LanesInv(s) && StoreGrows(s.store, e.store) && RequestsFit(env, s, t, e) && NotesFit(s, t, e)
    requires u != t && u in s.tasks && HeldOk(s, s.tasks[u]) && (t in s.tasks ==> HeldOk(s, s.tasks[t]))
    ensures HeldOk(Apply(s, t, e), s.tasks[u])
  {
    var task, b := s.tasks[u], Apply(s, t, e);
    hide LanesInv, StoreGrows, RequestsFit, NotesFit, Unresolved, ForRequest, Apply, HeldOk, Running;
    HeldIs(s, task);
    HeldIs(b, task);
    if t in s.tasks { HeldIs(s, s.tasks[t]); }
    if PastQueue(task) {
      PastQueueRuns(s, u);
      UnresolvedKept(env, s, t, e, u, task.req);
    }
    if task.ApproveResolving? || task.ApproveMinting? { ForRequestKept(s, t, e, task.req, task.grant); }
    if task.ApproveResolving? { OrphanIsOwn(s, t, e, u, task.req, task.grant); }
  }

  lemma TaskStays(env: Env, a: State, b: State, u: nat, task: Task)
    requires TaskOk(env, a, u, task) && HeldOk(b, task) && RecordOk(env, a, u)
    requires StoreGrows(a.store, b.store) && a.h.approvals <= b.h.approvals && Untouched(a, b, u)
    ensures TaskOk(env, b, u, task)
  {
    hide Decide, SelfOwned, Allowing, PlanWithin, Permits, Names, Says, Carries, OuterAgrees;
  }

  lemma RecordStays(env: Env, a: State, b: State, u: nat)
    requires RecordOk(env, a, u) && StoreGrows(a.store, b.store) && Untouched(a, b, u)
    ensures RecordOk(env, b, u)
  {
    hide AnswerOk, IssueOk, Permits, Terms, Backs;
    if u in a.h.answers { AnswerKept(env, a, b, a.h.answers[u].0, a.h.answers[u].1); }
    if u in a.h.issued { IssueKept(a, b, a.h.issued[u]); }
    if u in a.h.authorized { BacksKept(a, b, a.h.uses[u], a.h.authorized[u]); }
    if u in a.h.uses {
      var id := a.h.uses[u].grantId;
      PermitsTerms(a.store.grants[id], b.store.grants[id], a.h.uses[u].e);
    }
  }

  lemma CallKept(env: Env, s: State, t: nat, e: Effect, u: nat)
    requires Inv(env, s) && Owed(env, s, t, e) && u != t
    ensures CallOk(env, Apply(s, t, e), u)
  {
    var b := Apply(s, t, e);
    assert CallOk(env, s, u) && CallOk(env, s, t);
    hide Inv, RequestsFit, GrantsFit, NotesFit, LaneFits, RecordOk, StoreGrows;
    ApplyIsLocal(s, t, e, u);
    RecordStays(env, s, b, u);
    if u in s.tasks {
      assert HeldOk(s, s.tasks[u]);
      HeldKept(env, s, t, e, u);
      TaskStays(env, s, b, u, s.tasks[u]);
    }
  }

  // ----- the store -----

  lemma RequestKept(env: Env, s: State, t: nat, e: Effect, id: string)
    requires StoreGrows(s.store, e.store) && RequestsFit(env, s, t, e) && NotesFit(s, t, e)
    requires forall r :: r in s.store.requests ==> RequestOk(env, s, r)
    requires forall g :: g in s.h.made ==> g in s.store.grants
    requires id in e.store.requests
    ensures RequestOk(env, Apply(s, t, e), id)
  {
    hide MoveLanes, Decide, SelfOwned, Holds, Terms, Asking;
  }

  /** A use of another grant is not counted. */
  lemma UsesOfOthers(uses: map<nat, Use>, t: nat, v: Option<Use>, id: string)
    requires v.Some? ==> t !in uses && v.value.grantId != id
    ensures UsesOf(With(uses, t, v), id) == UsesOf(uses, id)
  {
  }

  lemma UsesOfOwn(uses: map<nat, Use>, t: nat, u: Use)
    requires t !in uses
    ensures |UsesOf(uses[t := u], u.grantId)| == |UsesOf(uses, u.grantId)| + 1
  {
    assert UsesOf(uses[t := u], u.grantId) == UsesOf(uses, u.grantId) + {t};
  }

  lemma FoundedKept(env: Env, a: State, b: State, g: Grant)
    requires StoreGrows(a.store, b.store) && a.h.approvals <= b.h.approvals && Founded(env, a, g)
    requires g.id in a.h.made <==> g.id in b.h.made
    requires g.id in a.h.made ==> a.h.made[g.id] == b.h.made[g.id]
    ensures Founded(env, b, g)
  {
    hide Decide, SelfOwned;
  }

  lemma GrantKept(env: Env, s: State, t: nat, e: Effect, id: string)
    requires StoreGrows(s.store, e.store) && NotesFit(s, t, e)
    requires id in s.store.grants && e.store.grants[id] == s.store.grants[id] && e.notes.revoked != Some(id)
    requires e.notes.used.Some? ==> e.notes.used.value.grantId != id
    requires GrantOk(env, s, id)
    ensures GrantOk(env, Apply(s, t, e), id)
  {
    var b := Apply(s, t, e);
    hide MoveLanes, UsesOf;
    UsesOfOthers(s.h.uses, t, e.notes.used, id);
    assert Founded(env, b, s.store.grants[id]) by { FoundedKept(env, s, b, s.store.grants[id]); }
    hide Founded;
  }

  /** A grant whose maker is another call, still about to record it. */
  lemma HeldByOther(s: State, t: nat, e: Effect, u: nat, g: string)
    requires Holds(s, u, g) && u != t
    ensures Holds(Apply(s, t, e), u, g)
  {
    ApplyIsLocal(s, t, e, u);
  }

  lemma RecordedStays(s: State, e: Effect, r: string, g: string)
    requires StoreGrows(s.store, e.store) && r in s.store.requests && s.store.requests[r].grantId == Some(g)
    requires s.store.requests[r].status == ACTIVE
    ensures r in e.store.requests && e.store.requests[r].grantId == Some(g)
  {
  }

  lemma MadeStays(s: State, t: nat, e: Effect, g: string)
    requires g in s.h.made && (e.notes.made.Some? ==> e.notes.made.value.grantId != g)
    ensures var b := Apply(s, t, e);
      g in b.h.made && b.h.made[g] == s.h.made[g] && b.store == e.store && s.h.orphans <= b.h.orphans
  {
    hide MoveLanes;
  }

  /** The maker's own next step records the grant or gives it up. */
  lemma MakerSettles(s: State, t: nat, e: Effect, g: string)
    requires NotesFit(s, t, e) && Holds(s, t, g) && HeldOk(s, s.tasks[t]) && g in s.h.made
    ensures g in Apply(s, t, e).h.orphans
      || (s.h.made[g] in e.store.requests && e.store.requests[s.h.made[g]].grantId == Some(g))
  {
    hide MoveLanes;
  }

  lemma MadeKept(s: State, t: nat, e: Effect, g: string)
    requires StoreGrows(s.store, e.store) && NotesFit(s, t, e)
    requires g in s.h.made && MadeOk(s, g) && (e.notes.made.Some? ==> e.notes.made.value.grantId != g)
    requires t in s.tasks ==> HeldOk(s, s.tasks[t])
    requires s.store.requests[s.h.made[g]].grantId.Some? ==> s.store.requests[s.h.made[g]].status == ACTIVE
    ensures MadeOk(Apply(s, t, e), g)
  {
    hide NotesFit, Apply, HeldOk;
    var r := s.h.made[g];
    MadeStays(s, t, e, g);
    assert g in e.store.grants && r in e.store.requests;
    if g !in s.h.orphans && s.store.requests[r].grantId != Some(g) {
      var u :| Holds(s, u, g);
      hide StoreGrows, Terms, Asking;
      if u != t {
        HeldByOther(s, t, e, u, g);
      } else {
        MakerSettles(s, t, e, g);
      }
    } else if g !in s.h.orphans {
      RecordedStays(s, e, r, g);
      hide StoreGrows;
    }
  }

  lemma MadeNow(s: State, t: nat, e: Effect, g: string)
    requires StoreGrows(s.store, e.store) && NotesFit(s, t, e) && e.notes.made.Some? && e.notes.made.value.grantId == g
    ensures MadeOk(Apply(s, t, e), g)
  {
    hide MoveLanes, Terms, Asking;
    assert Holds(Apply(s, t, e), t, g);
  }

  lemma ResolvedOnce(s: State, t: nat, e: Effect, u: nat, v: nat)
    requires OnceInv(s) && NotesFit(s, t, e)
    requires forall a :: a in s.h.resolutions ==>
      s.h.resolutions[a] in s.store.requests && s.store.requests[s.h.resolutions[a]].status != PENDING
    requires var b := Apply(s, t, e).h.resolutions; u in b && v in b && b[u] == b[v]
    ensures u == v
  {
    hide MoveLanes, Holds;
  }

  // ----- all of it -----

  lemma CallsKept(env: Env, s: State, t: nat, e: Effect)
    requires Inv(env, s) && Owed(env, s, t, e)
    ensures CallsInv(env, Apply(s, t, e))
  {
    hide CallOk, Inv, LaneFits, RequestsFit, GrantsFit, NotesFit, StoreGrows, Apply;
    forall u ensures CallOk(env, Apply(s, t, e), u) { if u != t { CallKept(env, s, t, e, u); } }
  }

  lemma RequestsKept(env: Env, s: State, t: nat, e: Effect)
    requires RequestsInv(env, s) && MadeInv(s) && StoreGrows(s.store, e.store) && RequestsFit(env, s, t, e)
    requires NotesFit(s, t, e)
    ensures RequestsInv(env, Apply(s, t, e))
  {
    var b := Apply(s, t, e);
    forall id | id in b.store.requests ensures RequestOk(env, b, id) {
      assert RequestsInv(env, s) && MadeInv(s);
      assert forall g :: g in s.h.made ==> g in s.store.grants by { assert forall g :: g in s.h.made ==> MadeOk(s, g); }
      hide RequestOk, MadeOk, StoreGrows, RequestsFit, NotesFit, Noted, MoveLanes;
      RequestKept(env, s, t, e, id);
    }
  }

  lemma GrantsKept(env: Env, s: State, t: nat, e: Effect)
    requires GrantsInv(env, s) && StoreGrows(s.store, e.store) && GrantsFit(env, s, t, e) && NotesFit(s, t, e)
    ensures GrantsInv(env, Apply(s, t, e))
  {
    var b := Apply(s, t, e);
    hide GrantOk, StoreGrows, NotesFit, Noted, MoveLanes;
    forall id | id in b.store.grants ensures GrantOk(env, b, id) {
      if !GrantOk(env, b, id) { GrantKept(env, s, t, e, id); }
    }
  }

  lemma GrantedIsActive(env: Env, s: State, r: string)
    requires RequestsInv(env, s) && r in s.store.requests && s.store.requests[r].grantId.Some?
    ensures s.store.requests[r].status == ACTIVE
  {
    assert RequestOk(env, s, r);
    hide Decide, SelfOwned;
  }

  lemma MadesKept(env: Env, s: State, t: nat, e: Effect)
    requires MadeInv(s) && RequestsInv(env, s) && (t in s.tasks ==> HeldOk(s, s.tasks[t]))
    requires StoreGrows(s.store, e.store) && NotesFit(s, t, e)
    ensures MadeInv(Apply(s, t, e))
  {
    var b := Apply(s, t, e);
    hide RequestsInv, StoreGrows, NotesFit, MoveLanes, ForRequest, Holds;
    forall g | g in b.h.made ensures MadeOk(b, g) {
      if e.notes.made.Some? && e.notes.made.value.grantId == g {
        hide MadeOk, HeldOk;
        MadeNow(s, t, e, g);
      } else {
        assert g in s.h.made && MadeOk(s, g);
        if s.store.requests[s.h.made[g]].grantId.Some? { GrantedIsActive(env, s, s.h.made[g]); }
        hide MadeOk, MadeInv;
        MadeKept(s, t, e, g);
      }
    }
    hide MadeOk;
  }

  lemma NamesKept(s: State, t: nat, e: Effect)
    requires NamesInv(s) && StoreGrows(s.store, e.store) && NotesFit(s, t, e)
    ensures NamesInv(Apply(s, t, e))
  {
    hide MoveLanes, Holds, Terms, Asking;
  }

  lemma OnceKept(env: Env, s: State, t: nat, e: Effect)
    requires OnceInv(s) && CallsInv(env, s) && NotesFit(s, t, e)
    ensures OnceInv(Apply(s, t, e))
  {
    assert forall a :: a in s.h.resolutions ==> CallOk(env, s, a);
    var b := Apply(s, t, e).h.resolutions;
    hide TaskOk, NotesFit, MoveLanes, Noted;
    forall u, v | u in b && v in b && b[u] == b[v] ensures u == v { ResolvedOnce(s, t, e, u, v); }
  }

  lemma StepKeeps(env: Env, s: State, t: nat, e: Effect)
    requires Inv(env, s) && Owed(env, s, t, e)
    ensures Inv(env, Apply(s, t, e))
  {
    assert t in s.tasks ==> HeldOk(s, s.tasks[t]) by { assert CallOk(env, s, t); }
    CallsKept(env, s, t, e);
    hide LanesInv, CallsInv, RequestsInv, GrantsInv, MadeInv, NamesInv, OnceInv, StoreGrows, RequestsFit, GrantsFit;
    hide NotesFit, LaneFits, HeldOk, Apply, CallOk;
    LanesKept(s, t, e);
    RequestsKept(env, s, t, e);
    GrantsKept(env, s, t, e);
    MadesKept(env, s, t, e);
    NamesKept(s, t, e);
    OnceKept(env, s, t, e);
  }
}

/** Every step of every call does what it owes. */
module AuthoritySteps {
  import opened JsValues
  import opened Results
  import opened AuthorityTypes
  import opened Policy
  import opened Claims
  import opened Tokens
  import opened Grants
  import opened StoreSteps
  import opened AuthorityMachine
  import opened AuthorityFrames
  import opened AuthorityLanes
  import opened AuthorityInvariant
  import opened AuthorityKeeps

  // ----- the call that moves -----

  /** What is noted is so, and the call goes where the record lets it be. */
  ghost predicate NotesOk(env: Env, s: State, t: nat, e: Effect)
  {
    var b := Apply(s, t, e);
    var n := e.notes;
    && (e.task.Some? ==> TaskOk(env, b, t, e.task.value))
    && (n.answer.Some? ==> AnswerOk(env, b, n.answer.value.0, n.answer.value.1))
    && (n.issued.Some? ==> IssueOk(b, n.issued.value))
    && (n.used.Some? ==> UseOk(b, n.used.value) && e.task.Some? && e.task.value.UseReturning?)
    && (n.ok ==> t in s.h.uses)
    && (n.authorized.Some? ==> t in s.h.oks && t in s.h.uses && Backs(b, s.h.uses[t], n.authorized.value))
    && (n.decided ==> e.task.None? && (n.resolution.Some? || t in s.h.resolutions))
    && (n.resolution.Some? ==>
      && n.resolution.value in e.store.requests && e.store.requests[n.resolution.value].status != PENDING
      && (e.task.Some? ==> e.task.value.ApproveMinting?))
    && (t in s.h.resolutions ==> e.task.None?)
    && (t in s.h.uses && e.task.Some? ==> e.task.value.UseReturned?)
  }

  lemma MoverOk(env: Env, s: State, t: nat, e: Effect)
    requires CallOk(env, s, t) && (t in s.tasks || t == s.next) && StoreGrows(s.store, e.store) && NotesOk(env, s, t, e)
    ensures CallOk(env, Apply(s, t, e), t)
  {
    var b := Apply(s, t, e);
    hide MoveLanes, AnswerOk, IssueOk, TaskOk, Permits, Terms, Asking, Backs;
    if t in s.h.answers { AnswerKept(env, s, b, s.h.answers[t].0, s.h.answers[t].1); }
    if t in s.h.issued { IssueKept(s, b, s.h.issued[t]); }
    if t in s.h.authorized { BacksKept(s, b, s.h.uses[t], s.h.authorized[t]); }
    if t in s.h.uses {
      var id := s.h.uses[t].grantId;
      PermitsTerms(s.store.grants[id], b.store.grants[id], s.h.uses[t].e);
    }
  }

  /** A step that leaves grants and requests alone owes little. */
  ghost predicate Quiet(s: State, t: nat, e: Effect)
  {
    var n := e.notes;
    e.store.grants == s.store.grants && e.store.requests == s.store.requests
    && n.made.None? && n.orphan.None? && n.resolution.None? && n.used.None? && n.revoked.None?
    && (t in s.tasks ==> !s.tasks[t].ApproveResolving?)
  }

  lemma QuietOwes(env: Env, s: State, t: nat, e: Effect)
    requires CallOk(env, s, t) && (t in s.tasks || t == s.next) && Quiet(s, t, e) && LaneFits(s, t, e)
    requires NotesOk(env, s, t, e)
    ensures Owed(env, s, t, e)
  {
    MoverOk(env, s, t, e);
    hide CallOk, LaneFits, NotesOk, RequestOk, GrantOk, Apply;
  }

  /** A step that writes a grant under a new name. */
  lemma GrantOwes(env: Env, s: State, t: nat, e: Effect, g: Grant)
    requires CallOk(env, s, t) && t in s.tasks && g.id !in s.store.grants && g.id !in s.h.made
    requires e.store == CreateGrant(s.store, g)
    requires LaneFits(s, t, e) && NotesFit(s, t, e) && e.notes.used.None? && e.notes.revoked.None?
    requires GrantOk(env, Apply(s, t, e), g.id) && NotesOk(env, s, t, e)
    ensures Owed(env, s, t, e)
  {
    GrantWriteGrows(s.store, g);
    MoverOk(env, s, t, e);
    hide CallOk, LaneFits, NotesFit, NotesOk, StoreGrows, RequestOk, GrantOk, Apply;
  }

  /** A step that writes one request: a new one, or the one its lane is on. */
  lemma RequestOwes(env: Env, s: State, t: nat, e: Effect, id: string)
    requires CallOk(env, s, t) && t in s.tasks && e.store.grants == s.store.grants && StoreGrows(s.store, e.store)
    requires forall r :: r in e.store.requests && r != id ==>
      r in s.store.requests && e.store.requests[r] == s.store.requests[r]
    requires id in e.store.requests && RequestOk(env, Apply(s, t, e), id)
    requires (id in s.store.requests ==> Running(s, t, id))
    requires LaneFits(s, t, e) && NotesFit(s, t, e) && e.notes.used.None? && e.notes.revoked.None?
    requires NotesOk(env, s, t, e)
    ensures Owed(env, s, t, e)
  {
    MoverOk(env, s, t, e);
    hide CallOk, LaneFits, NotesFit, NotesOk, StoreGrows, RequestOk, GrantOk, Apply;
  }

  lemma ReplyOwes(env: Env, s: State, t: nat, input: CheckInput, a: Answer)
    requires CallOk(env, s, t) && (t in s.tasks || t == s.next) && (t in s.tasks ==> LaneOf(s.tasks[t]).None?)
    requires AnswerOk(env, Apply(s, t, Reply(s.store, input, a)), input, a)
    ensures Owed(env, s, t, Reply(s.store, input, a))
  {
    hide TaskOk, CallOk, AnswerOk;
    QuietOwes(env, s, t, Reply(s.store, input, a));
  }

  lemma MoveOwes(env: Env, s: State, t: nat, task: Task)
    requires CallOk(env, s, t) && (t in s.tasks || t == s.next) && t !in s.h.resolutions && t !in s.h.uses
    requires t in s.tasks ==> !s.tasks[t].ApproveResolving? && LaneOf(task) == LaneOf(s.tasks[t])
    requires t in s.tasks && Queued(s.tasks[t]) ==> FirstInLane(s, t)
    requires t !in s.tasks ==> LaneOf(task).None?
    requires TaskOk(env, Apply(s, t, Move(s.store, task)), t, task)
    ensures Owed(env, s, t, Move(s.store, task))
  {
    hide TaskOk, CallOk;
    QuietOwes(env, s, t, Move(s.store, task));
  }

  lemma EndOwes(env: Env, s: State, t: nat, lane: LaneMove)
    requires CallOk(env, s, t) && (t in s.tasks || t == s.next) && (t in s.tasks ==> !s.tasks[t].ApproveResolving?)
    requires LaneFits(s, t, End(s.store, lane, QUIET))
    ensures Owed(env, s, t, End(s.store, lane, QUIET))
  {
    hide TaskOk, CallOk, LaneFits;
    QuietOwes(env, s, t, End(s.store, lane, QUIET));
  }

  /** A call that begins, or ends at once, with its caller on record. */
  lemma BeginOwes(env: Env, s: State, next: Option<Task>, caller: Caller)
    requires CallsInv(env, s)
    requires var e := Effect(s.store, next, Stay, QUIET.(caller := Some(caller)));
      next.Some? ==> LaneOf(next.value).None? && TaskOk(env, Apply(s, s.next, e), s.next, next.value)
    ensures Owed(env, s, s.next, Effect(s.store, next, Stay, QUIET.(caller := Some(caller))))
  {
    FreshCall(env, s);
    NotTaken(env, s);
    hide TaskOk, CallOk, CallsInv;
    QuietOwes(env, s, s.next, Effect(s.store, next, Stay, QUIET.(caller := Some(caller))));
  }

  lemma NotTaken(env: Env, s: State)
    requires CallsInv(env, s)
    ensures s.next !in s.tasks && s.next !in s.h.resolutions && s.next !in s.h.uses
  {
    FreshCall(env, s);
    hide CallsInv, CallOk;
  }

  /** A number that no call has yet. */
  lemma FreshCall(env: Env, s: State)
    requires CallsInv(env, s)
    ensures CallOk(env, s, s.next) && !Known(s, s.next)
  {
    hide TaskOk, RecordOk, Known;
  }

  // ----- check -----

  lemma CheckCallOwes(env: Env, s: State, input: CheckInput, now: int)
    requires CallsInv(env, s)
    ensures Owed(env, s, s.next, OnCheckCall(env, s, input, now))
  {
    FreshCall(env, s);
    hide CallsInv, Decide, SelfOwned, CallOk, Owed;
    var e := OnCheckCall(env, s, input, now);
    if e.task.None? {
      ReplyOwes(env, s, s.next, input, e.notes.answer.value.1);
    } else {
      MoveOwes(env, s, s.next, e.task.value);
    }
  }

  lemma CreateAskedOwes(env: Env, s: State, t: nat, id: string)
    requires CallOk(env, s, t) && t in s.tasks && s.tasks[t].AskCreating? && id !in s.store.requests
    ensures Owed(env, s, t, OnCreateAsked(s, s.tasks[t], id))
  {
    var e := OnCreateAsked(s, s.tasks[t], id);
    var task := s.tasks[t];
    var r := NewRequest(id, task.input, task.m);
    assert ReqScope(r) == task.input.scope;
    hide Decide, SelfOwned, Owed, MoveLanes;
    RequestWriteGrows(s.store, r);
    assert NotesOk(env, s, t, e) && NotesFit(s, t, e);
    hide CallOk, NotesOk, NotesFit, StoreGrows;
    RequestOwes(env, s, t, e, id);
  }

  lemma ListGrantsOwes(env: Env, s: State, t: nat, found: Option<string>)
    requires CallOk(env, s, t) && t in s.tasks && s.tasks[t].AllowListing?
    requires (found.Some? ==> found.value in s.store.grants)
    requires found.Some? ==> Suits(s.store.grants[found.value], s.tasks[t].input, s.tasks[t].now)
    requires found.Some? ==> s.store.grants[found.value].id == found.value
    ensures Owed(env, s, t, OnListGrants(s, s.tasks[t], found))
  {
    assert t !in s.h.resolutions && t !in s.h.uses;
    hide Decide, SelfOwned, LimitExceeded, Owed, RecordOk;
    var e := OnListGrants(s, s.tasks[t], found);
    if e.task.None? {
      ReplyOwes(env, s, t, s.tasks[t].input, e.notes.answer.value.1);
    } else {
      MoveOwes(env, s, t, e.task.value);
    }
  }

  /** A grant under a new name has no uses and was never revoked. */
  lemma NewGrantOk(env: Env, s: State, t: nat, e: Effect, g: Grant)
    requires CallsInv(env, s) && NamesInv(s) && g.id !in s.store.grants
    requires e.store == CreateGrant(s.store, g) && e.notes.used.None? && e.notes.revoked.None?
    requires Founded(env, Apply(s, t, e), g) && g.status == ACTIVE && g.usageCount == 0 && g.revokedAt.None?
    ensures GrantOk(env, Apply(s, t, e), g.id)
  {
    forall u | u in s.h.uses ensures s.h.uses[u].grantId in s.store.grants { assert CallOk(env, s, u); }
    assert UsesOf(s.h.uses, g.id) == {};
    hide CallsInv, Founded, MoveLanes;
  }

  lemma AllowedFounded(env: Env, s: State, t: nat, id: string)
    requires CallOk(env, s, t) && t in s.tasks && s.tasks[t].AllowCreating? && id !in s.h.made
    ensures var task := s.tasks[t];
      Founded(env, Apply(s, t, OnCreateAllowed(s, task, id)), NewAllowed(id, task.input, task.m, task.now))
  {
    hide Decide, SelfOwned, LimitExceeded, MoveLanes, RecordOk;
    var task := s.tasks[t];
    assert GrantScope(NewAllowed(id, task.input, task.m, task.now)) == task.input.scope;
  }

  lemma AllowedNoted(env: Env, s: State, t: nat, id: string)
    requires CallOk(env, s, t) && t in s.tasks && s.tasks[t].AllowCreating?
    ensures var task := s.tasks[t]; var e := OnCreateAllowed(s, task, id);
      var g := NewAllowed(id, task.input, task.m, task.now);
      && NotesFit(s, t, e) && NotesOk(env, s, t, e) && LaneFits(s, t, e)
      && e.store == CreateGrant(s.store, g) && e.notes.used.None? && e.notes.revoked.None?
      && g.id == id && g.status == ACTIVE && g.usageCount == 0 && g.revokedAt.None?
  {
    hide Decide, SelfOwned, LimitExceeded, MoveLanes, UseOk, IssueOk, Backs;
  }

  lemma CreateAllowedOwes(env: Env, s: State, t: nat, id: string)
    requires CallsInv(env, s) && MadeInv(s) && NamesInv(s) && t in s.tasks && s.tasks[t].AllowCreating?
    requires id !in s.store.grants
    ensures Owed(env, s, t, OnCreateAllowed(s, s.tasks[t], id))
  {
    var task := s.tasks[t];
    var e := OnCreateAllowed(s, task, id);
    var g := NewAllowed(id, task.input, task.m, task.now);
    assert CallOk(env, s, t);
    hide *;
    UnmadeId(s, id);
    AllowedFounded(env, s, t, id);
    AllowedNoted(env, s, t, id);
    NewGrantOk(env, s, t, e, g);
    GrantOwes(env, s, t, e, g);
  }

  lemma UnmadeId(s: State, id: string)
    requires MadeInv(s) && id !in s.store.grants
    ensures id !in s.h.made
  {
    assert id in s.h.made ==> MadeOk(s, id);
  }

  // ----- approve and deny -----

  lemma ApproveCallOwes(env: Env, s: State, ownerId: string, requestId: string, oneTime: Option<bool>, ttl: Option<Ttl>)
    requires CallsInv(env, s)
    ensures Owed(env, s, s.next, OnApproveCall(s, ownerId, requestId, oneTime, ttl))
  {
    FreshCall(env, s);
    hide CallsInv, CallOk;
    QuietOwes(env, s, s.next, OnApproveCall(s, ownerId, requestId, oneTime, ttl));
  }

  lemma DenyCallOwes(env: Env, s: State, ownerId: string, requestId: string)
    requires CallsInv(env, s)
    ensures Owed(env, s, s.next, OnDenyCall(s, ownerId, requestId))
  {
    FreshCall(env, s);
    hide CallsInv, CallOk;
    QuietOwes(env, s, s.next, OnDenyCall(s, ownerId, requestId));
  }

  /** What the running call of a lane finds. */
  lemma LaneStartFinds(env: Env, s: State, t: nat)
    requires CallOk(env, s, t) && RequestsInv(env, s) && t in s.tasks && Queued(s.tasks[t])
    ensures t !in s.h.resolutions && t !in s.h.uses
    ensures var task := s.tasks[t];
      && (task.ApproveQueued? ==> (task.ownerId, task.requestId) in s.h.approvals)
      && (task.requestId in s.store.requests ==> s.store.requests[task.requestId].id == task.requestId)
  {
    var r := s.tasks[t].requestId;
    assert r in s.store.requests ==> RequestOk(env, s, r);
    hide Decide, SelfOwned, UseOk, IssueOk, AnswerOk;
  }

  /** The calls that a lane starts hold the request that was found. */
  lemma LaneTasksOk(env: Env, s: State, t: nat, next: Task)
    requires next.DenyWriting? || next.StepUpDenying? || next.ApproveCreating?
    requires Unresolved(s, next.req)
    requires next.ApproveCreating? ==> (next.req.ownerId, next.req.id) in s.h.approvals
    ensures TaskOk(env, Apply(s, t, Move(s.store, next)), t, next) && LaneOf(next) == Some(next.req.id)
  {
    hide MoveLanes;
  }

  lemma LaneStartOwes(env: Env, s: State, t: nat)
    requires CallOk(env, s, t) && RequestsInv(env, s) && t in s.tasks && Queued(s.tasks[t]) && FirstInLane(s, t)
    ensures Owed(env, s, t, OnLaneStart(s, s.tasks[t]))
  {
    var task := s.tasks[t];
    hide NeedsStepUp, SelfOwned, MoveLanes, Owed, FirstInLane, Decide, CallOk, RequestsInv, TaskOk, Apply;
    LaneStartFinds(env, s, t);
    var e := OnLaneStart(s, task);
    if e.task.None? {
      EndOwes(env, s, t, Leave(task.requestId));
    } else {
      var req := s.store.requests[task.requestId];
      assert Unresolved(s, req) && req.ownerId == task.ownerId;
      LaneTasksOk(env, s, t, e.task.value);
      MoveOwes(env, s, t, e.task.value);
    }
  }

  lemma DeniedNoted(env: Env, s: State, t: nat, audited: bool, now: int)
    requires CallOk(env, s, t) && t in s.tasks && (s.tasks[t].DenyWriting? || s.tasks[t].StepUpDenying?)
    ensures var id := s.tasks[t].req.id; var e := OnWriteDenied(s, s.tasks[t], audited, now);
      && NotesFit(s, t, e) && NotesOk(env, s, t, e) && Unresolved(s, s.tasks[t].req) && Running(s, t, id)
      && e.store == ResolveRequest(s.store, id, DENIED, None, now) && e.store.requests == Apply(s, t, e).store.requests
      && Apply(s, t, e).h.made == s.h.made && e.notes.used.None? && e.notes.revoked.None?
  {
    hide MoveLanes, UseOk, IssueOk, AnswerOk, Backs;
  }

  lemma DeniedRequestOk(env: Env, s: State, b: State, r: Request, now: int)
    requires Unresolved(s, r) && RequestOk(env, s, r.id) && b.h.made == s.h.made
    requires b.store.requests == ResolveRequest(s.store, r.id, DENIED, None, now).requests
    ensures RequestOk(env, b, r.id) && r.id in s.store.requests && s.store.requests[r.id].status == PENDING
  {
    hide Decide, SelfOwned;
  }

  lemma DeniedLeaves(s: State, t: nat, audited: bool, now: int)
    requires LanesInv(s) && t in s.tasks && (s.tasks[t].DenyWriting? || s.tasks[t].StepUpDenying?)
    ensures LaneFits(s, t, OnWriteDenied(s, s.tasks[t], audited, now))
  {
    RunningIsFirst(s, t, s.tasks[t].req.id);
    hide LanesInv, FirstInLane;
  }

  lemma WriteDeniedOwes(env: Env, s: State, t: nat, audited: bool, now: int)
    requires CallOk(env, s, t) && RequestsInv(env, s) && LanesInv(s)
    requires t in s.tasks && (s.tasks[t].DenyWriting? || s.tasks[t].StepUpDenying?)
    ensures Owed(env, s, t, OnWriteDenied(s, s.tasks[t], audited, now))
  {
    var task := s.tasks[t];
    var e := OnWriteDenied(s, task, audited, now);
    assert CallOk(env, s, t) && RequestOk(env, s, task.req.id);
    hide *;
    DeniedNoted(env, s, t, audited, now);
    DeniedRequestOk(env, s, Apply(s, t, e), task.req, now);
    DeniedLeaves(s, t, audited, now);
    ResolveGrows(s.store, task.req.id, DENIED, None, now);
    ResolveIsOne(s.store, task.req.id, DENIED, None, now);
    RequestOwes(env, s, t, e, task.req.id);
  }

  lemma ApprovedFounded(env: Env, s: State, t: nat, id: string, now: int)
    requires CallOk(env, s, t) && t in s.tasks && s.tasks[t].ApproveCreating? && RequestOk(env, s, s.tasks[t].req.id)
    ensures var task := s.tasks[t];
      Founded(env, Apply(s, t, OnCreateApproved(s, task, id, now)),
              NewApproved(id, task.req, task.once, task.lasts, now))
  {
    hide Decide, SelfOwned, MoveLanes, RecordOk;
    var task := s.tasks[t];
    assert GrantScope(NewApproved(id, task.req, task.once, task.lasts, now)) == ReqScope(task.req);
  }

  lemma ApprovedNoted(env: Env, s: State, t: nat, id: string, now: int)
    requires CallOk(env, s, t) && NamesInv(s) && t in s.tasks && s.tasks[t].ApproveCreating? && id !in s.store.grants
    ensures NotesFit(s, t, OnCreateApproved(s, s.tasks[t], id, now))
    ensures NotesOk(env, s, t, OnCreateApproved(s, s.tasks[t], id, now))
    ensures LaneFits(s, t, OnCreateApproved(s, s.tasks[t], id, now))
  {
    hide Decide, SelfOwned, MoveLanes, UseOk, IssueOk, AnswerOk;
  }

  lemma CreateApprovedOwes(env: Env, s: State, t: nat, id: string, now: int)
    requires CallsInv(env, s) && RequestsInv(env, s) && MadeInv(s) && NamesInv(s)
    requires t in s.tasks && s.tasks[t].ApproveCreating? && id !in s.store.grants
    ensures Owed(env, s, t, OnCreateApproved(s, s.tasks[t], id, now))
  {
    var task := s.tasks[t];
    var e := OnCreateApproved(s, task, id, now);
    var g := NewApproved(id, task.req, task.once, task.lasts, now);
    assert CallOk(env, s, t) && RequestOk(env, s, task.req.id) && (id in s.h.made ==> MadeOk(s, id));
    ApprovedFounded(env, s, t, id, now);
    ApprovedNoted(env, s, t, id, now);
    hide CallsInv, RequestsInv, MadeInv, NamesInv, CallOk, RequestOk, Founded, LaneFits, NotesFit, NotesOk, GrantOk;
    hide Owed, Apply;
    NewGrantOk(env, s, t, e, g);
    GrantOwes(env, s, t, e, g);
  }

  lemma ResolvedNoted(env: Env, s: State, t: nat, now: int)
    requires CallOk(env, s, t) && t in s.tasks && s.tasks[t].ApproveResolving?
    ensures NotesFit(s, t, OnResolveApproved(s, s.tasks[t], now))
    ensures NotesOk(env, s, t, OnResolveApproved(s, s.tasks[t], now))
  {
    hide MoveLanes, Terms, UseOk, IssueOk, AnswerOk, Decide, SelfOwned;
  }

  lemma ResolvedRequestOk(env: Env, s: State, b: State, r: Request, g: string, now: int)
    requires Unresolved(s, r) && RequestOk(env, s, r.id) && g in b.h.made && b.h.made[g] == r.id
    requires b.store.requests == ResolveRequest(s.store, r.id, ACTIVE, Some(g), now).requests
    ensures RequestOk(env, b, r.id)
  {
    hide Decide, SelfOwned;
  }

  lemma ResolvingHolds(env: Env, s: State, t: nat)
    requires CallOk(env, s, t) && t in s.tasks && s.tasks[t].ApproveResolving?
    ensures var task := s.tasks[t];
      && Unresolved(s, task.req) && task.req.id in s.store.requests && s.store.requests[task.req.id].status == PENDING
      && task.grant.id in s.h.made && s.h.made[task.grant.id] == task.req.id && Running(s, t, task.req.id)
  {
    hide RecordOk, Copy;
  }

  lemma ResolveShape(s: State, t: nat, now: int)
    requires t in s.tasks && s.tasks[t].ApproveResolving?
    ensures var task := s.tasks[t]; var e := OnResolveApproved(s, task, now); var b := Apply(s, t, e);
      && e.store == ResolveRequest(s.store, task.req.id, ACTIVE, Some(task.grant.id), now)
      && b.store.requests == e.store.requests && b.h.made == s.h.made
      && LaneFits(s, t, e) && e.notes.used.None? && e.notes.revoked.None?
  {
    hide MoveLanes, ResolveRequest;
  }

  lemma ResolveApprovedOwes(env: Env, s: State, t: nat, now: int)
    requires CallOk(env, s, t) && RequestsInv(env, s) && t in s.tasks && s.tasks[t].ApproveResolving?
    ensures Owed(env, s, t, OnResolveApproved(s, s.tasks[t], now))
  {
    hide *;
    var task := s.tasks[t];
    var e := OnResolveApproved(s, task, now);
    ResolvedNoted(env, s, t, now);
    ResolvingHolds(env, s, t);
    RequestAt(env, s, task.req.id);
    ResolveShape(s, t, now);
    ResolvedRequestOk(env, s, Apply(s, t, e), task.req, task.grant.id, now);
    ResolveGrows(s.store, task.req.id, ACTIVE, Some(task.grant.id), now);
    ResolveIsOne(s.store, task.req.id, ACTIVE, Some(task.grant.id), now);
    RequestOwes(env, s, t, e, task.req.id);
  }

  lemma RequestAt(env: Env, s: State, id: string)
    requires RequestsInv(env, s) && id in s.store.requests
    ensures RequestOk(env, s, id)
  {
  }

  lemma ResolveIsOne(s: Store, id: string, status: Status, grantId: Option<string>, now: int)
    requires id in s.requests
    ensures var b := ResolveRequest(s, id, status, grantId, now);
      b.grants == s.grants && id in b.requests
      && forall r :: r in b.requests && r != id ==> r in s.requests && b.requests[r] == s.requests[r]
  {
  }

  /** A token cut from a faithful copy of a stored grant. */
  lemma CopyIssues(env: Env, s: State, g: Grant, plan: IssuePlan, m: Minting)
    requires Copy(s, g) && PlanWithin(plan, g)
    ensures var r := IssueTokenFromGrant(env.key, env.tokenTtl, g, plan.actions, plan.resources, plan.ttl, m);
      Minted(r, m).Some? ==> IssueOk(s, Minted(r, m).value)
  {
    var r := IssueTokenFromGrant(env.key, env.tokenTtl, g, plan.actions, plan.resources, plan.ttl, m);
    if r.Ok? {
      IssuedWithinGrant(env.key, env.tokenTtl, g, plan.actions, plan.resources, plan.ttl, m);
      hide IssueTokenFromGrant, Seconds;
      assert WithinGrant(r.value.1, s.store.grants[g.id]);
    }
  }

  lemma MintApprovedOwes(env: Env, s: State, t: nat, m: Minting)
    requires CallOk(env, s, t) && LanesInv(s) && t in s.tasks && s.tasks[t].ApproveMinting?
    ensures Owed(env, s, t, OnMintApproved(env, s, s.tasks[t], m))
  {
    var task := s.tasks[t];
    var e := OnMintApproved(env, s, task, m);
    RunningIsFirst(s, t, task.req.id);
    hide IssueTokenFromGrant, IssueOk, LanesInv, MoveLanes, Owed;
    CopyIssues(env, Apply(s, t, e), task.grant, IssuePlan([task.req.action], [task.req.resource], None), m);
    assert NotesOk(env, s, t, e);
    hide CallOk, NotesOk, FirstInLane, Minted;
    QuietOwes(env, s, t, e);
  }

  // ----- revoke and issue -----

  lemma RevokeCallOwes(env: Env, s: State, ownerId: string, grantId: string)
    requires CallsInv(env, s)
    ensures Owed(env, s, s.next, OnRevokeCall(s, ownerId, grantId))
  {
    hide CallsInv, Owed;
    BeginOwes(env, s, OnRevokeCall(s, ownerId, grantId).task, Caller(ownerId, None, None));
  }

  /** A step that writes the status or the count of one grant. */
  lemma UpdateOwes(env: Env, s: State, t: nat, e: Effect, id: string)
    requires CallOk(env, s, t) && t in s.tasks && e.store.requests == s.store.requests && StoreGrows(s.store, e.store)
    requires forall g :: g in e.store.grants && g != id ==>
      g in s.store.grants && e.store.grants[g] == s.store.grants[g]
    requires id in e.store.grants && GrantOk(env, Apply(s, t, e), id)
    requires (e.notes.used.Some? ==> e.notes.used.value.grantId == id)
    requires (e.notes.revoked.Some? ==> e.notes.revoked.value == id)
    requires LaneFits(s, t, e) && NotesFit(s, t, e) && NotesOk(env, s, t, e)
    ensures Owed(env, s, t, e)
  {
    MoverOk(env, s, t, e);
    hide CallOk, LaneFits, NotesFit, NotesOk, StoreGrows, RequestOk, GrantOk, Apply;
  }

  lemma RevokedGrantOk(env: Env, s: State, b: State, t: nat, id: string, at: Date)
    requires id in s.store.grants && GrantOk(env, s, id)
    requires b.store == UpdateGrantStatus(s.store, id, REVOKED, Some(Some(at)))
    requires b.h == s.h.(revoked := s.h.revoked[id := t])
    ensures GrantOk(env, b, id)
  {
    var g := s.store.grants[id];
    hide UsesOf, LeastCount, CountLimits, Founded, Terms, Asking;
    RevokeGrows(s.store, id, Some(Some(at)));
    hide StoreGrows;
    FoundedKept(env, s, b, g);
    FoundedByTerms(env, b, g, g.(status := REVOKED, revokedAt := Some(at)));
  }

  /** Status and count have no part in where a grant comes from. */
  lemma FoundedByTerms(env: Env, s: State, g: Grant, h: Grant)
    requires Founded(env, s, g) && Terms(g) == Terms(h)
    ensures Founded(env, s, h)
  {
    hide Decide, SelfOwned;
    assert h == g.(status := h.status, usageCount := h.usageCount, revokedAt := h.revokedAt);
  }

  lemma RevokeNoted(env: Env, s: State, t: nat, now: int)
    requires CallOk(env, s, t) && t in s.tasks && s.tasks[t].RevokeWriting?
    ensures var e := OnWriteRevoked(s, s.tasks[t], now); var id := s.tasks[t].grantId; var b := Apply(s, t, e);
      && NotesFit(s, t, e) && NotesOk(env, s, t, e) && LaneFits(s, t, e) && id in s.store.grants && id in e.store.grants
      && e.store == UpdateGrantStatus(s.store, id, REVOKED, Some(Some(At(now)))) && e.store.requests == s.store.requests
      && b.store == e.store && b.h == s.h.(revoked := s.h.revoked[id := t])
      && e.notes.used == None && e.notes.revoked == Some(id)
      && forall g :: g in e.store.grants && g != id ==> g in s.store.grants && e.store.grants[g] == s.store.grants[g]
  {
    hide MoveLanes, UseOk, IssueOk, AnswerOk, Backs;
  }

  lemma WriteRevokedOwes(env: Env, s: State, t: nat, now: int)
    requires CallOk(env, s, t) && GrantsInv(env, s) && t in s.tasks && s.tasks[t].RevokeWriting?
    ensures Owed(env, s, t, OnWriteRevoked(s, s.tasks[t], now))
  {
    var id := s.tasks[t].grantId;
    var e := OnWriteRevoked(s, s.tasks[t], now);
    hide *;
    RevokeNoted(env, s, t, now);
    GrantAt(env, s, id);
    RevokedGrantOk(env, s, Apply(s, t, e), t, id, At(now));
    MayRevoke(env, s, id);
    RevokeGrows(s.store, id, Some(Some(At(now))));
    UpdateOwes(env, s, t, e, id);
  }

  lemma MayRevoke(env: Env, s: State, id: string)
    requires id in s.store.grants && GrantOk(env, s, id)
    ensures StatusMoves(s.store.grants[id].status, REVOKED)
  {
    hide Founded, Accounted;
  }

  lemma PlanIsWithin(found: Option<Grant>, ownerId: string, narrow: Narrow, tokenTtl: Number, now: int)
    requires PlanIssue(found, ownerId, narrow, tokenTtl, now).Go?
    ensures found.Some? && PlanWithin(PlanIssue(found, ownerId, narrow, tokenTtl, now).plan, found.value)
  {
    hide GrantIsLive, LimitExceeded, Seconds, TtlAccepted;
  }

  lemma IssueCallOwes(env: Env, s: State, ownerId: string, grantId: string, narrow: Narrow, now: int)
    requires CallsInv(env, s) && GrantsInv(env, s)
    ensures Owed(env, s, s.next, OnIssueCall(env, s, ownerId, grantId, narrow, now))
  {
    hide CallsInv, PlanIssue, PlanWithin, Owed, GrantOk;
    var found := GetGrant(s.store, grantId);
    var planned := PlanIssue(found, ownerId, narrow, env.tokenTtl, now);
    if planned.Go? {
      PlanIsWithin(found, ownerId, narrow, env.tokenTtl, now);
      GrantAt(env, s, grantId);
      GrantFounded(env, s, grantId);
    }
    hide Founded, GrantsInv;
    BeginOwes(env, s, OnIssueCall(env, s, ownerId, grantId, narrow, now).task, Caller(ownerId, None, None));
  }

  lemma MintIssuedOwes(env: Env, s: State, t: nat, m: Minting)
    requires CallOk(env, s, t) && t in s.tasks && s.tasks[t].Issuing?
    ensures Owed(env, s, t, OnMintIssued(env, s, s.tasks[t], m))
  {
    var task := s.tasks[t];
    var e := OnMintIssued(env, s, task, m);
    hide IssueTokenFromGrant, IssueOk, MoveLanes, Owed, PlanWithin;
    CopyIssues(env, Apply(s, t, e), task.grant, task.plan, m);
    assert NotesOk(env, s, t, e);
    hide CallOk, NotesOk, Minted;
    QuietOwes(env, s, t, e);
  }

  // ----- use -----

  predicate InUse(task: Task)
  {
    task.AuthorizeConsuming? || task.UseReading? || task.UseConsuming? || task.UseReserving?
    || task.UseReturning? || task.UseReturned?
  }

  lemma UseEndOwes(env: Env, s: State, t: nat)
    requires CallOk(env, s, t) && t in s.tasks && InUse(s.tasks[t])
    ensures Owed(env, s, t, End(s.store, Stay, QUIET))
  {
    hide CallOk, Owed;
    EndOwes(env, s, t, Stay);
  }

  lemma UseMoveOwes(env: Env, s: State, t: nat, next: Task)
    requires CallOk(env, s, t) && t in s.tasks && InUse(s.tasks[t]) && InUse(next)
    requires t !in s.h.resolutions && t !in s.h.uses && TaskOk(env, Apply(s, t, Move(s.store, next)), t, next)
    ensures Owed(env, s, t, Move(s.store, next))
  {
    hide CallOk, Owed, TaskOk, Apply;
    MoveOwes(env, s, t, next);
  }

  lemma ReadingOk(env: Env, s: State, t: nat, c: Claims, e: Expectation, shown: Shown, outer: Option<Claims>)
    requires Names(e, c.actor, c.aud) && OuterAgrees(outer, c, e)
    ensures TaskOk(env, s, t, UseReading(c, e, shown, outer))
  {
    hide Names, OuterAgrees;
  }

  lemma UseCallOwes(env: Env, s: State, w: Wire, x: Expectation, now: int)
    requires CallsInv(env, s)
    ensures Owed(env, s, s.next, OnUseCall(env, s, w, x, now))
  {
    FreshCall(env, s);
    var e := OnUseCall(env, s, w, x, now);
    if e.task.Some? { VerifiedMatches(env.skips, w, x, [env.key], now, 0); }
    hide CallsInv, CallOk, Owed, VerifyAuthorityToken, Carries, TaskOk, Apply;
    if e.task.None? {
      EndOwes(env, s, s.next, Stay);
    } else {
      ReadingOk(env, Apply(s, s.next, e), s.next, e.task.value.claims, x, Shown(w, now), None);
      MoveOwes(env, s, s.next, e.task.value);
    }
  }

  lemma AuthorizeCallOwes(
    env: Env, s: State, w: Wire, x: Expectation, owner: Option<string>, jwks: seq<Jwk>, now: int, tolerance: int)
    requires CallsInv(env, s)
    ensures Owed(env, s, s.next, OnAuthorizeCall(s, w, x, owner, jwks, now, tolerance))
  {
    FreshCall(env, s);
    var e := OnAuthorizeCall(s, w, x, owner, jwks, now, tolerance);
    hide Carries, Says;
    if e.task.Some? { ConsumerMatches(w, x, owner, jwks, now, tolerance); }
    hide CallsInv, CallOk, Owed, VerifyAuthority;
    if e.task.None? { EndOwes(env, s, s.next, Stay); } else { MoveOwes(env, s, s.next, e.task.value); }
  }

  /** A call that is not past its reservation has nothing on record. */
  lemma NothingNoted(env: Env, s: State, t: nat)
    requires CallOk(env, s, t) && t in s.tasks && InUse(s.tasks[t])
    ensures t !in s.h.resolutions
    ensures !s.tasks[t].UseReturning? && !s.tasks[t].UseReturned? ==> t !in s.h.uses
    ensures TaskOk(env, s, t, s.tasks[t])
  {
    hide TaskOk, UseOk, IssueOk, AnswerOk, Backs;
  }

  lemma SameToken(w: Wire, c: Claims, d: Claims)
    requires Carries(w, c) && Carries(w, d)
    ensures SameClaims(c, d)
  {
    hide FromPayload, IsAuthorityClaimsShape;
  }

  /** The service reads the claims that were verified outside. */
  lemma ConsumesSame(env: Env, s: State, t: nat, task: Task, now: int)
    requires TaskOk(env, s, t, task) && task.AuthorizeConsuming?
    ensures match VerifyAuthorityToken(env.skips, task.w, task.e, [env.key], now, 0)
      case Err(_) => OnConsumeCall(env, s, task, now) == End(s.store, Stay, QUIET)
      case Ok(c) =>
        OnConsumeCall(env, s, task, now)
          == Move(s.store, UseReading(c, task.e, Shown(task.w, now), Some(task.verified)))
        && Names(task.e, c.actor, c.aud) && OuterAgrees(Some(task.verified), c, task.e)
  {
    hide VerifyAuthorityToken, Carries, SameClaims;
    var r := VerifyAuthorityToken(env.skips, task.w, task.e, [env.key], now, 0);
    if r.Ok? {
      VerifiedMatches(env.skips, task.w, task.e, [env.key], now, 0);
      SameToken(task.w, task.verified, r.value);
    }
  }

  lemma ConsumeCallOwes(env: Env, s: State, t: nat, now: int)
    requires CallOk(env, s, t) && t in s.tasks && s.tasks[t].AuthorizeConsuming?
    ensures Owed(env, s, t, OnConsumeCall(env, s, s.tasks[t], now))
  {
    var task := s.tasks[t];
    assert InUse(task);
    hide *;
    NothingNoted(env, s, t);
    ConsumesSame(env, s, t, task, now);
    match VerifyAuthorityToken(env.skips, task.w, task.e, [env.key], now, 0)
    case Err(_) => UseEndOwes(env, s, t);
    case Ok(c) =>
      var next := UseReading(c, task.e, Shown(task.w, now), Some(task.verified));
      ReadingOk(env, Apply(s, t, Move(s.store, next)), t, c, task.e, Shown(task.w, now), Some(task.verified));
      assert InUse(next) by { ReadingInUse(next); }
      UseMoveOwes(env, s, t, next);
  }

  lemma ReadingInUse(task: Task)
    requires task.UseReading? || task.UseConsuming? || task.UseReserving?
    ensures InUse(task)
  {
  }

  /** What `useToken` has not refused, the grant permits. */
  lemma NotRefused(found: Option<Grant>, c: Claims, e: Expectation, now: int)
    requires UseRefusal(found, c, e, now).None? && Names(e, c.actor, c.aud)
    ensures found.Some? && Permits(found.value, e) && found.value.ownerId == c.sub
  {
    hide GrantIsLive, CountLimits, LimitExceeded, ActorKey;
  }

  /** The call has its copy of the grant, and goes on to the jti where that counts. */
  function AfterRead(task: Task, g: Grant): Task
    requires task.UseReading?
  {
    if task.claims.oneTime || g.oneTime then UseConsuming(task.claims, task.e, task.shown, g, task.outer)
    else UseReserving(task.claims, task.e, task.shown, g, task.outer)
  }

  lemma ReadShape(s: State, task: Task, now: int)
    requires task.UseReading?
    ensures var found := GetGrant(s.store, task.claims.grantId);
      if UseRefusal(found, task.claims, task.e, now).Some? then OnUseRead(s, task, now) == End(s.store, Stay, QUIET)
      else found.Some? && OnUseRead(s, task, now) == Move(s.store, AfterRead(task, found.value))
  {
    hide GrantIsLive, CountLimits, LimitExceeded, Bound;
  }

  lemma ReadOk(env: Env, s: State, t: nat, task: Task, g: Grant, now: int)
    requires TaskOk(env, s, t, task) && task.UseReading? && GetGrant(s.store, task.claims.grantId) == Some(g)
    requires g.id == task.claims.grantId && UseRefusal(Some(g), task.claims, task.e, now).None?
    ensures var next := AfterRead(task, g); TaskOk(env, Apply(s, t, Move(s.store, next)), t, next) && InUse(next)
  {
    hide UseRefusal, Permits, Names, OuterAgrees, MoveLanes, Terms;
    NotRefused(Some(g), task.claims, task.e, now);
  }

  lemma UseReadOwes(env: Env, s: State, t: nat, now: int)
    requires CallOk(env, s, t) && GrantsInv(env, s) && t in s.tasks && s.tasks[t].UseReading?
    ensures Owed(env, s, t, OnUseRead(s, s.tasks[t], now))
  {
    var task := s.tasks[t];
    var id := task.claims.grantId;
    assert InUse(task);
    assert GetGrant(s.store, id).Some? ==> id in s.store.grants && GetGrant(s.store, id).value == s.store.grants[id];
    hide *;
    NothingNoted(env, s, t);
    ReadShape(s, task, now);
    if UseRefusal(GetGrant(s.store, id), task.claims, task.e, now).Some? {
      UseEndOwes(env, s, t);
    } else {
      var g := s.store.grants[id];
      GrantAt(env, s, id);
      GrantFounded(env, s, id);
      ReadOk(env, s, t, task, g, now);
      UseMoveOwes(env, s, t, AfterRead(task, g));
    }
  }

  lemma ConsumedNoted(env: Env, s: State, t: nat)
    requires CallOk(env, s, t) && t in s.tasks && s.tasks[t].UseConsuming?
    ensures var e := OnConsumeJti(s, s.tasks[t]); NotesOk(env, s, t, e) && Quiet(s, t, e) && LaneFits(s, t, e)
  {
    hide Permits, MoveLanes, OuterAgrees, UseOk, IssueOk, AnswerOk, Backs;
  }

  lemma ConsumeJtiOwes(env: Env, s: State, t: nat)
    requires CallOk(env, s, t) && t in s.tasks && s.tasks[t].UseConsuming?
    ensures Owed(env, s, t, OnConsumeJti(s, s.tasks[t]))
  {
    hide *;
    ConsumedNoted(env, s, t);
    QuietOwes(env, s, t, OnConsumeJti(s, s.tasks[t]));
  }

  /** The budget passed to the store is the one the invariant speaks of. */
  lemma ReservedAccounted(s: State, t: nat, g: Grant, used: Use, now: int, oneTime: bool)
    requires Accounted(s, g) && Permits(g, used.e) && used.grantId == g.id && t !in s.h.uses && (g.oneTime ==> oneTime)
    requires Reservable(g, g.grantVersion, now, Budget(g))
    ensures var h := Reserved(g, oneTime);
      h.usageCount == |UsesOf(s.h.uses[t := used], g.id)|
      && (LeastCount(h.limits).Some? ==> h.usageCount <= LeastCount(h.limits).value)
      && (h.oneTime ==> h.usageCount <= 1 && h.status != ACTIVE)
  {
    UsesOfOwn(s.h.uses, t, used);
    hide UsesOf, Unconditional, Names, LeastCount, CountLimits;
  }

  lemma ReservedNoted(env: Env, s: State, t: nat, now: int)
    requires CallOk(env, s, t) && t in s.tasks && s.tasks[t].UseReserving? && OnReserve(s, s.tasks[t], now).task.Some?
    ensures NotesFit(s, t, OnReserve(s, s.tasks[t], now)) && NotesOk(env, s, t, OnReserve(s, s.tasks[t], now))
  {
    var task := s.tasks[t];
    var id := task.grant.id;
    hide MoveLanes, IssueOk, AnswerOk, Permits, Budget, Reservable, UseOk;
    var b := Apply(s, t, OnReserve(s, task, now));
    PermitsTerms(task.grant, b.store.grants[id], task.e);
    assert UseOk(b, Use(id, task.e, task.shown, task.claims));
  }

  /** The stored grant after a reservation, seen from the caller's copy of its terms. */
  lemma ReserveWrites(env: Env, s: State, t: nat, now: int)
    requires t in s.tasks && s.tasks[t].UseReserving? && OnReserve(s, s.tasks[t], now).task.Some?
    requires TaskOk(env, s, t, s.tasks[t])
    ensures var task := s.tasks[t]; var id := task.grant.id; var e := OnReserve(s, task, now);
      && id in s.store.grants && Permits(s.store.grants[id], task.e) && s.store.grants[id].status == ACTIVE
      && Reservable(s.store.grants[id], s.store.grants[id].grantVersion, now, Budget(s.store.grants[id]))
      && (s.store.grants[id].oneTime <==> task.grant.oneTime)
      && e.store == s.store.(grants := s.store.grants[id :=
           Reserved(s.store.grants[id], task.claims.oneTime || task.grant.oneTime)])
      && e.notes.used == Some(Use(id, task.e, task.shown, task.claims))
  {
    var task := s.tasks[t];
    var id := task.grant.id;
    PermitsTerms(task.grant, s.store.grants[id], task.e);
    hide Permits;
  }

  lemma ReservedGrantOk(env: Env, s: State, b: State, t: nat, id: string, used: Use, now: int, oneTime: bool)
    requires id in s.store.grants && GrantOk(env, s, id) && t !in s.h.uses && used.grantId == id
    requires var g := s.store.grants[id];
      Permits(g, used.e) && (g.oneTime ==> oneTime) && Reservable(g, g.grantVersion, now, Budget(g))
      && b.store == s.store.(grants := s.store.grants[id := Reserved(g, oneTime)])
    requires b.h == s.h.(uses := s.h.uses[t := used])
    ensures GrantOk(env, b, id)
  {
    var g := s.store.grants[id];
    hide Founded, UsesOf, LeastCount, Decide, SelfOwned, Names, Unconditional, ActorKey, Budget;
    ReservedAccounted(s, t, g, used, now, oneTime);
    assert g.status == ACTIVE;
    hide Reservable;
    FoundedStays(env, s, b, g, oneTime);
  }

  lemma FoundedStays(env: Env, s: State, b: State, g: Grant, oneTime: bool)
    requires g.id in s.store.grants && s.store.grants[g.id] == g && Founded(env, s, g)
    requires b.store == s.store.(grants := s.store.grants[g.id := Reserved(g, oneTime)])
    requires b.h.approvals == s.h.approvals && b.h.made == s.h.made && g.status == ACTIVE
    ensures StoreGrows(s.store, b.store) && Founded(env, b, Reserved(g, oneTime))
  {
    hide Decide, SelfOwned;
    FoundedKept(env, s, b, g);
  }

  lemma ReserveOwes(env: Env, s: State, t: nat, now: int)
    requires CallOk(env, s, t) && GrantsInv(env, s) && t in s.tasks && s.tasks[t].UseReserving?
    ensures Owed(env, s, t, OnReserve(s, s.tasks[t], now))
  {
    var task := s.tasks[t];
    var e := OnReserve(s, task, now);
    hide Reservable, Budget, Owed, GrantsInv, Permits;
    if e.task.None? {
      assert e == End(s.store, Stay, QUIET);
      hide OnReserve, CallOk;
      EndOwes(env, s, t, Stay);
    } else {
      assert GrantOk(env, s, task.grant.id) by { assert GrantsInv(env, s); GrantAt(env, s, task.grant.id); }
      ReserveSucceeds(env, s, t, now);
    }
  }

  lemma GrantAt(env: Env, s: State, id: string)
    requires GrantsInv(env, s) && id in s.store.grants
    ensures GrantOk(env, s, id)
  {
  }

  /** What the step looks like from outside. */
  lemma ReserveShape(s: State, t: nat, now: int)
    requires t in s.tasks && s.tasks[t].UseReserving? && OnReserve(s, s.tasks[t], now).task.Some?
    ensures var task := s.tasks[t]; var e := OnReserve(s, task, now); var b := Apply(s, t, e);
      && LaneFits(s, t, e) && e.notes.used == Some(Use(task.grant.id, task.e, task.shown, task.claims))
      && e.notes.revoked == None
      && b.h == s.h.(uses := s.h.uses[t := Use(task.grant.id, task.e, task.shown, task.claims)]) && b.store == e.store
  {
    hide ReserveUse, Budget;
  }

  lemma ReserveSucceeds(env: Env, s: State, t: nat, now: int)
    requires CallOk(env, s, t) && t in s.tasks && s.tasks[t].UseReserving? && OnReserve(s, s.tasks[t], now).task.Some?
    requires s.tasks[t].grant.id in s.store.grants && GrantOk(env, s, s.tasks[t].grant.id)
    ensures Owed(env, s, t, OnReserve(s, s.tasks[t], now))
  {
    var task := s.tasks[t];
    var id := task.grant.id;
    var e := OnReserve(s, task, now);
    hide *;
    ReadingInUse(task);
    NothingNoted(env, s, t);
    ReservedNoted(env, s, t, now);
    ReserveShape(s, t, now);
    ReserveWrites(env, s, t, now);
    GrantFounded(env, s, id);
    var oneTime := task.claims.oneTime || task.grant.oneTime;
    ReservedGrantOk(env, s, Apply(s, t, e), t, id, Use(id, task.e, task.shown, task.claims), now, oneTime);
    FoundedStays(env, s, Apply(s, t, e), s.store.grants[id], oneTime);
    UpdateOwes(env, s, t, e, id);
  }

  lemma GrantFounded(env: Env, s: State, id: string)
    requires id in s.store.grants && GrantOk(env, s, id)
    ensures s.store.grants[id].id == id && Founded(env, s, s.store.grants[id])
  {
    hide Founded, Accounted;
  }

  lemma ReturnNoted(env: Env, s: State, t: nat)
    requires CallOk(env, s, t) && t in s.tasks && s.tasks[t].UseReturning?
    ensures var e := OnUseReturn(s, s.tasks[t]); NotesOk(env, s, t, e) && Quiet(s, t, e) && LaneFits(s, t, e)
  {
    hide Permits, MoveLanes, UseOk, IssueOk, AnswerOk, Says;
  }

  lemma UseReturnOwes(env: Env, s: State, t: nat)
    requires CallOk(env, s, t) && t in s.tasks && s.tasks[t].UseReturning?
    ensures Owed(env, s, t, OnUseReturn(s, s.tasks[t]))
  {
    hide *;
    ReturnNoted(env, s, t);
    QuietOwes(env, s, t, OnUseReturn(s, s.tasks[t]));
  }

  lemma AuthorizedNoted(env: Env, s: State, t: nat)
    requires CallOk(env, s, t) && t in s.tasks && s.tasks[t].UseReturned?
    ensures var e := OnAuthorizeReturn(s, s.tasks[t]); NotesOk(env, s, t, e) && Quiet(s, t, e) && LaneFits(s, t, e)
  {
    hide Permits, MoveLanes, UseOk, IssueOk, AnswerOk, Says;
  }

  lemma AuthorizeReturnOwes(env: Env, s: State, t: nat)
    requires CallOk(env, s, t) && t in s.tasks && s.tasks[t].UseReturned?
    ensures Owed(env, s, t, OnAuthorizeReturn(s, s.tasks[t]))
  {
    hide *;
    AuthorizedNoted(env, s, t);
    QuietOwes(env, s, t, OnAuthorizeReturn(s, s.tasks[t]));
  }

  lemma AbortOwes(env: Env, s: State, t: nat)
    requires CallOk(env, s, t) && LanesInv(s) && t in s.tasks && (Queued(s.tasks[t]) ==> FirstInLane(s, t))
    ensures Owed(env, s, t, OnAbort(s, s.tasks[t]))
  {
    var task := s.tasks[t];
    var e := OnAbort(s, task);
    if LaneOf(task).Some? && !Queued(task) { RunningIsFirst(s, t, LaneOf(task).value); }
    hide LanesInv, MoveLanes, FirstInLane;
    if task.ApproveResolving? {
      assert NotesOk(env, s, t, e) && NotesFit(s, t, e);
      MoverOk(env, s, t, e);
      hide CallOk, NotesOk, NotesFit, RequestOk, GrantOk;
    } else {
      hide CallOk, Owed;
      EndOwes(env, s, t, e.lane);
    }
  }

  // ----- all steps -----

  predicate Checks(l: Step)
  {
    l.CheckCall? || l.CreateAsked? || l.ListGrants? || l.CreateAllowed?
  }

  predicate Resolves(l: Step)
  {
    l.ApproveCall? || l.DenyCall? || l.LaneStart? || l.WriteDenied? || l.CreateApproved? || l.ResolveApproved?
    || l.MintApproved?
  }

  predicate Uses(l: Step)
  {
    l.UseCall? || l.AuthorizeCall? || l.ConsumeCall? || l.UseRead? || l.ConsumeJti? || l.Reserve? || l.UseReturn?
    || l.AuthorizeReturn?
  }

  lemma CheckOwes(env: Env, s: State, l: Step)
    requires CallsInv(env, s) && GrantsInv(env, s) && MadeInv(s) && NamesInv(s) && Enabled(s, l) && Checks(l)
    ensures Owed(env, s, Mover(s, l), EffectOf(env, s, l))
  {
    hide OnCheckCall, OnCreateAsked, OnListGrants, OnCreateAllowed, Owed, CallOk, GrantOk, Suits, MadeInv, NamesInv;
    hide Apply;
    var t := Mover(s, l);
    assert CallOk(env, s, t);
    hide CallsInv;
    match l
    case CheckCall(input, now) => CheckCallOwes(env, s, input, now);
    case CreateAsked(_, id) => CreateAskedOwes(env, s, t, id);
    case ListGrants(_, found) =>
      if found.Some? { GrantAt(env, s, found.value); GrantFounded(env, s, found.value); }
      ListGrantsOwes(env, s, t, found);
    case CreateAllowed(_, id) => CreateAllowedOwes(env, s, t, id);
  }

  lemma ResolveOwes(env: Env, s: State, l: Step)
    requires CallsInv(env, s) && LanesInv(s) && RequestsInv(env, s) && MadeInv(s) && NamesInv(s) && Enabled(s, l)
    requires Resolves(l)
    ensures Owed(env, s, Mover(s, l), EffectOf(env, s, l))
  {
    hide OnApproveCall, OnDenyCall, OnLaneStart, OnWriteDenied, OnCreateApproved, OnResolveApproved, OnMintApproved;
    hide Owed, CallOk, LanesInv, RequestsInv, MadeInv, NamesInv, FirstInLane, Apply;
    var t := Mover(s, l);
    assert CallOk(env, s, t);
    hide CallsInv;
    match l
    case ApproveCall(ownerId, requestId, oneTime, ttl) => ApproveCallOwes(env, s, ownerId, requestId, oneTime, ttl);
    case DenyCall(ownerId, requestId) => DenyCallOwes(env, s, ownerId, requestId);
    case LaneStart(_) => LaneStartOwes(env, s, t);
    case WriteDenied(_, audited, now) => WriteDeniedOwes(env, s, t, audited, now);
    case CreateApproved(_, id, now) => CreateApprovedOwes(env, s, t, id, now);
    case ResolveApproved(_, now) => ResolveApprovedOwes(env, s, t, now);
    case MintApproved(_, m) => MintApprovedOwes(env, s, t, m);
  }

  lemma UseOwes(env: Env, s: State, l: Step)
    requires CallsInv(env, s) && GrantsInv(env, s) && Enabled(s, l) && Uses(l)
    ensures Owed(env, s, Mover(s, l), EffectOf(env, s, l))
  {
    hide OnUseCall, OnAuthorizeCall, OnConsumeCall, OnUseRead, OnConsumeJti, OnReserve, OnUseReturn;
    hide OnAuthorizeReturn, Owed, CallOk, GrantsInv, Apply;
    var t := Mover(s, l);
    assert CallOk(env, s, t);
    hide CallsInv;
    match l
    case UseCall(w, x, now) => UseCallOwes(env, s, w, x, now);
    case AuthorizeCall(w, x, owner, jwks, now, tolerance) =>
      AuthorizeCallOwes(env, s, w, x, owner, jwks, now, tolerance);
    case ConsumeCall(_, now) => ConsumeCallOwes(env, s, t, now);
    case UseRead(_, now) => UseReadOwes(env, s, t, now);
    case ConsumeJti(_) => ConsumeJtiOwes(env, s, t);
    case Reserve(_, now) => ReserveOwes(env, s, t, now);
    case UseReturn(_) => UseReturnOwes(env, s, t);
    case AuthorizeReturn(_) => AuthorizeReturnOwes(env, s, t);
  }

  lemma OtherOwes(env: Env, s: State, l: Step)
    requires CallsInv(env, s) && LanesInv(s) && GrantsInv(env, s) && Enabled(s, l) && !Checks(l) && !Resolves(l)
    requires !Uses(l)
    ensures Owed(env, s, Mover(s, l), EffectOf(env, s, l))
  {
    hide OnRevokeCall, OnWriteRevoked, OnIssueCall, OnMintIssued, OnAbort, Owed, CallOk, LanesInv, GrantsInv;
    hide FirstInLane, Apply;
    var t := Mover(s, l);
    assert CallOk(env, s, t);
    hide CallsInv;
    match l
    case RevokeCall(ownerId, grantId) => RevokeCallOwes(env, s, ownerId, grantId);
    case WriteRevoked(_, now) => WriteRevokedOwes(env, s, t, now);
    case IssueCall(ownerId, grantId, narrow, now) => IssueCallOwes(env, s, ownerId, grantId, narrow, now);
    case MintIssued(_, m) => MintIssuedOwes(env, s, t, m);
    case Abort(_) => AbortOwes(env, s, t);
  }

  lemma StepOwes(env: Env, s: State, l: Step)
    requires Inv(env, s) && Enabled(s, l)
    ensures Owed(env, s, Mover(s, l), EffectOf(env, s, l))
  {
    hide Owed, EffectOf, Mover, Enabled, CallsInv, LanesInv, GrantsInv, RequestsInv, MadeInv, NamesInv, OnceInv;
    if Checks(l) {
      CheckOwes(env, s, l);
    } else if Resolves(l) {
      ResolveOwes(env, s, l);
    } else if Uses(l) {
      UseOwes(env, s, l);
    } else {
      OtherOwes(env, s, l);
    }
  }
}

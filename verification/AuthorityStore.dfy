/** packages/digi-authority/src/stores.ts, sqlite-store.ts and postgres-store.ts: each call is one step. */
module StoreSteps {
  import opened JsValues
  import opened Results
  import opened AuthorityTypes
  import Iso = IsoDates

  datatype Store = Store(grants: map<string, Grant>, requests: map<string, Request>, consumed: set<string>)

  const EMPTY := Store(map[], map[], {})

  // ----- the steps -----

  function CreateGrant(s: Store, g: Grant): Store
  {
    s.(grants := s.grants[g.id := g])
  }

  function GetGrant(s: Store, id: string): Option<Grant>
  {
    if id in s.grants then Some(s.grants[id]) else None
  }

  /** `revokedAt` is left out (None), or null or a date. */
  function UpdateGrantStatus(s: Store, id: string, status: Status, revokedAt: Option<Option<Date>>): Store
  {
    if id !in s.grants then s
    else
      var g := s.grants[id].(status := status);
      s.(grants := s.grants[id := if revokedAt.Some? then g.(revokedAt := revokedAt.value) else g])
  }

  /** Whether the row lets a use through; an invalid date stops nothing here. */
  predicate Reservable(g: Grant, version: int, now: int, maxUsage: Option<int>)
  {
    g.status == ACTIVE && g.grantVersion == version
    && !Before(At(now), g.validFrom) && !(g.validUntil.At? && now >= g.validUntil.ms)
    && (maxUsage.Some? ==> g.usageCount < maxUsage.value)
  }

  function Reserved(g: Grant, oneTime: bool): Grant
  {
    g.(usageCount := g.usageCount + 1, status := if oneTime then CONSUMED else g.status)
  }

  function ReserveUse(s: Store, id: string, version: int, now: int, maxUsage: Option<int>, oneTime: bool): (Store, bool)
  {
    if id !in s.grants || !Reservable(s.grants[id], version, now, maxUsage) then (s, false)
    else (s.(grants := s.grants[id := Reserved(s.grants[id], oneTime)]), true)
  }

  function CreateRequest(s: Store, r: Request): Store
  {
    s.(requests := s.requests[r.id := r])
  }

  function GetRequest(s: Store, id: string): Option<Request>
  {
    if id in s.requests then Some(s.requests[id]) else None
  }

  function ResolveRequest(s: Store, id: string, status: Status, grantId: Option<string>, now: int): Store
  {
    if id !in s.requests then s
    else s.(requests := s.requests[id :=
              s.requests[id].(status := status, grantId := grantId, resolvedAt := Some(At(now)))])
  }

  function TryConsumeJti(s: Store, jti: string): (Store, bool)
  {
    (s.(consumed := s.consumed + {jti}), jti !in s.consumed)
  }

  // ----- the SQL stores -----

  /** The primary key holds, and every date is one that `toISOString` could write. */
  ghost predicate ValidTable(rows: map<string, Grant>)
  {
    forall k :: k in rows ==> rows[k].id == k && Written(rows[k].validFrom) && Written(rows[k].validUntil)
  }

  predicate Written(d: Date)
  {
    d.At? && Iso.InDateRange(d.ms)
  }

  /** The part of the WHERE clause that is not about dates. */
  predicate Open(row: Grant, id: string, version: int, maxUsage: Option<int>)
  {
    row.id == id && row.grantVersion == version && row.status == ACTIVE
    && (maxUsage.None? || row.usageCount < maxUsage.value)
  }

  /** UPDATE ... SET ... WHERE, with the number of rows it changed. */
  function UpdateWhere(rows: map<string, Grant>, where: Grant -> bool, oneTime: bool): (map<string, Grant>, nat)
  {
    (map k | k in rows :: if where(rows[k]) then Reserved(rows[k], oneTime) else rows[k],
     |set k | k in rows && where(rows[k])|)
  }

  lemma UpdatesOneRow(rows: map<string, Grant>, where: Grant -> bool, id: string, oneTime: bool)
    requires forall k :: k in rows && where(rows[k]) ==> k == id
    ensures UpdateWhere(rows, where, oneTime)
         == if id in rows && where(rows[id]) then (rows[id := Reserved(rows[id], oneTime)], 1) else (rows, 0)
  {
    var (after, changes) := UpdateWhere(rows, where, oneTime);
    var hit := set k | k in rows && where(rows[k]);
    if id in rows && where(rows[id]) {
      assert hit == {id};
      assert after == rows[id := Reserved(rows[id], oneTime)];
    } else {
      assert hit == {};
      assert after == rows;
    }
  }

  // ----- SQLite: dates are kept and compared as text -----

  /** `valid_from <= ? AND valid_until > ?` on texts. */
  predicate InTextWindow(validFrom: int, now: int, validUntil: int)
  {
    !Iso.TextBefore(Iso.IsoText(now), Iso.IsoText(validFrom))
    && Iso.TextBefore(Iso.IsoText(now), Iso.IsoText(validUntil))
  }

  predicate SqliteMatches(row: Grant, id: string, version: int, now: int, maxUsage: Option<int>)
  {
    Open(row, id, version, maxUsage)
    && row.validFrom.At? && row.validUntil.At? && InTextWindow(row.validFrom.ms, now, row.validUntil.ms)
  }

  function SqliteReserveUse(
    rows: map<string, Grant>, id: string, version: int, now: int, maxUsage: Option<int>, oneTime: bool)
    : (map<string, Grant>, nat)
  {
    UpdateWhere(rows, (row: Grant) => SqliteMatches(row, id, version, now, maxUsage), oneTime)
  }

  /** The text window and the window of time disagree, told by the years alone and the order of the times. */
  predicate Skewed(validFrom: int, now: int, validUntil: int)
  {
    if Iso.Missorted(now, validFrom) && Iso.Missorted(now, validUntil) then
      validFrom < now < validUntil || validUntil < now < validFrom
    else if Iso.Missorted(now, validFrom) then now < validUntil
    else Iso.Missorted(now, validUntil) && validFrom <= now
  }

  lemma TextWindow(validFrom: int, now: int, validUntil: int)
    requires Iso.InDateRange(validFrom) && Iso.InDateRange(now) && Iso.InDateRange(validUntil)
    ensures InTextWindow(validFrom, now, validUntil)
      <==> (validFrom <= now < validUntil) != Skewed(validFrom, now, validUntil)
  {
    Iso.TextOrderIsTimeOrder(now, validFrom);
    Iso.TextOrderIsTimeOrder(now, validUntil);
    hide Iso.TextBefore, Iso.IsoText, Iso.Missorted;
  }

  /**
   The UPDATE statement takes the memory store's step, same table and one changed row for `true`, for
   every call but those on a row that is open and whose dates the texts put on the wrong side of the clock.
   */
  lemma SqliteRefinesMemory(s: Store, id: string, version: int, now: int, maxUsage: Option<int>, oneTime: bool)
    requires ValidTable(s.grants) && Iso.InDateRange(now)
    ensures var (rows, changes) := SqliteReserveUse(s.grants, id, version, now, maxUsage, oneTime);
      (s.(grants := rows), changes == 1) == ReserveUse(s, id, version, now, maxUsage, oneTime)
      <==> !(id in s.grants && Open(s.grants[id], id, version, maxUsage)
             && Skewed(s.grants[id].validFrom.ms, now, s.grants[id].validUntil.ms))
  {
    hide Skewed, InTextWindow, UpdateWhere;
    UpdatesOneRow(s.grants, (row: Grant) => SqliteMatches(row, id, version, now, maxUsage), id, oneTime);
    if id in s.grants {
      var g := s.grants[id];
      TextWindow(g.validFrom.ms, now, g.validUntil.ms);
      assert Reserved(g, oneTime).usageCount != g.usageCount;
    }
  }

  /** A moment of the years 0 to 9999. */
  predicate FourDigits(ms: int)
  {
    !Iso.FarPast(ms) && !Iso.FarFuture(ms)
  }

  /**
   While clock and grants begin in the years 0 to 9999, the statement differs from the memory store on
   exactly the reservations of grants that end later than that: the memory store makes them, SQLite never.
   */
  lemma SqliteLosesFarGrants(s: Store, id: string, version: int, now: int, maxUsage: Option<int>, oneTime: bool)
    requires ValidTable(s.grants) && FourDigits(now) && (id in s.grants ==> FourDigits(s.grants[id].validFrom.ms))
    ensures var (rows, changes) := SqliteReserveUse(s.grants, id, version, now, maxUsage, oneTime);
      var (after, reserved) := ReserveUse(s, id, version, now, maxUsage, oneTime);
      if reserved && Iso.FarFuture(s.grants[id].validUntil.ms) then (rows, changes) == (s.grants, 0)
      else (s.(grants := rows), changes == 1) == (after, reserved)
  {
    SqliteRefinesMemory(s, id, version, now, maxUsage, oneTime);
    UpdatesOneRow(s.grants, (row: Grant) => SqliteMatches(row, id, version, now, maxUsage), id, oneTime);
    hide InTextWindow, UpdateWhere;
    if id in s.grants { TextWindow(s.grants[id].validFrom.ms, now, s.grants[id].validUntil.ms); }
  }

  /** A reusable grant from the start of 1970 on. */
  function Sample(validUntil: Date, version: int): Grant
  {
    Grant("g", "owner", ActorRef(App, "app"), "aud", ["a"], ["r"], map[], map[], ALLOW, LOW, false,
          At(0), validUntil, ACTIVE, version, None, 0, None)
  }

  /** Such a grant: it ends in the year 11476. */
  lemma SqliteLosesSample()
    ensures var s := EMPTY.(grants := map["g" := Sample(At(300000000000000), 1)]);
      ReserveUse(s, "g", 1, 1, None, false).1 && SqliteReserveUse(s.grants, "g", 1, 1, None, false) == (s.grants, 0)
  {
    var s := EMPTY.(grants := map["g" := Sample(At(300000000000000), 1)]);
    hide SqliteReserveUse;
    SqliteLosesFarGrants(s, "g", 1, 1, None, false);
  }

  // ----- Postgres: four-byte integers -----

  const MAX_INT4: int := 2147483647

  predicate InInt4(n: int)
  {
    -MAX_INT4 - 1 <= n <= MAX_INT4
  }

  predicate PostgresMatches(row: Grant, id: string, version: int, now: int, maxUsage: Option<int>)
  {
    Open(row, id, version, maxUsage)
    && row.validFrom.At? && row.validFrom.ms <= now && row.validUntil.At? && row.validUntil.ms > now
  }

  /**
   TIMESTAMPTZ compares times; `timeOf` is what it makes of the text of the clock.  Version and bound are
   four-byte integers and so is the count: each can be out of range, and then the call throws.
   */
  function PostgresReserveUse(
    timeOf: string -> Option<int>,
    rows: map<string, Grant>, id: string, version: int, now: int, maxUsage: Option<int>, oneTime: bool)
    : Result<(map<string, Grant>, bool)>
  {
    var clock := timeOf(Iso.IsoText(now));
    if clock.None? then Err("invalid input syntax for type timestamp with time zone")
    else if !InInt4(version) || (maxUsage.Some? && !InInt4(maxUsage.value)) then
      Err("value out of range for type integer")
    else if exists k :: k in rows && PostgresMatches(rows[k], id, version, clock.value, maxUsage)
                        && !InInt4(rows[k].usageCount + 1) then Err("integer out of range")
    else
      var (after, changes) :=
        UpdateWhere(rows, (row: Grant) => PostgresMatches(row, id, version, clock.value, maxUsage), oneTime);
      Ok((after, changes == 1))
  }

  /**
   The Postgres statement takes the memory store's step exactly for versions and bounds of four bytes,
   but for the reservation without a bound that would count past them.
   */
  lemma PostgresRefinesMemory(
    timeOf: string -> Option<int>, s: Store, id: string, version: int, now: int, maxUsage: Option<int>, oneTime: bool)
    requires ValidTable(s.grants) && timeOf(Iso.IsoText(now)) == Some(now)
    ensures var (after, reserved) := ReserveUse(s, id, version, now, maxUsage, oneTime);
      PostgresReserveUse(timeOf, s.grants, id, version, now, maxUsage, oneTime) == Ok((after.grants, reserved))
      <==> InInt4(version) && (maxUsage.Some? ==> InInt4(maxUsage.value))
           && !(maxUsage.None? && reserved && s.grants[id].usageCount >= MAX_INT4)
  {
    hide UpdateWhere, Iso.IsoText;
    UpdatesOneRow(s.grants, (row: Grant) => PostgresMatches(row, id, version, now, maxUsage), id, oneTime);
    var reserved := ReserveUse(s, id, version, now, maxUsage, oneTime).1;
    assert reserved <==> id in s.grants && PostgresMatches(s.grants[id], id, version, now, maxUsage);
  }

  /** A usable limit, and a version, that only the memory store takes. */
  lemma PostgresThrows(timeOf: string -> Option<int>)
    requires timeOf(Iso.IsoText(1)) == Some(1)
    ensures var s := EMPTY.(grants := map["g" := Sample(At(2), 1)]);
      ReserveUse(s, "g", 1, 1, Some(3000000000), false).1
      && PostgresReserveUse(timeOf, s.grants, "g", 1, 1, Some(3000000000), false).Err?
    ensures var s := EMPTY.(grants := map["g" := Sample(At(2), 1)]);
      !ReserveUse(s, "g", 3000000000, 1, None, false).1
      && PostgresReserveUse(timeOf, s.grants, "g", 3000000000, 1, None, false).Err?
  {
    hide Iso.IsoText;
  }

  /** INSERT into authority_consumptions: the primary key refuses the second row. */
  function InsertConsumption(rows: map<string, string>, jti: string, grantId: string): (map<string, string>, bool)
  {
    if jti in rows then (rows, false) else (rows[jti := grantId], true)
  }

  lemma InsertRefinesMemory(s: Store, rows: map<string, string>, jti: string, grantId: string)
    requires rows.Keys == s.consumed
    ensures InsertConsumption(rows, jti, grantId).1 == TryConsumeJti(s, jti).1
    ensures InsertConsumption(rows, jti, grantId).0.Keys == TryConsumeJti(s, jti).0.consumed
  {
  }
}

/** `MemoryAuthorityStore`: maps updated in place, one step a call. */
module MemoryStore {
  import opened JsValues
  import opened Results
  import opened AuthorityTypes
  import Steps = StoreSteps

  class MemoryAuthorityStore {
    var grants: map<string, Grant>
    var requests: map<string, Request>
    var consumed: set<string>

    ghost function State(): Steps.Store
      reads this
    {
      Steps.Store(grants, requests, consumed)
    }

    constructor ()
      ensures State() == Steps.EMPTY
    {
      grants, requests, consumed := map[], map[], {};
    }

    method ReserveUse(id: string, version: int, now: int, maxUsage: Option<int>, oneTime: bool) returns (reserved: bool)
      modifies this
      ensures (State(), reserved) == Steps.ReserveUse(old(State()), id, version, now, maxUsage, oneTime)
    {
      if id !in grants { return false; }
      var g := grants[id];
      if g.status != ACTIVE || g.grantVersion != version || Before(At(now), g.validFrom)
         || (g.validUntil.At? && now >= g.validUntil.ms) || (maxUsage.Some? && g.usageCount >= maxUsage.value) {
        return false;
      }
      g := g.(usageCount := g.usageCount + 1);
      if oneTime { g := g.(status := CONSUMED); }
      grants := grants[id := g];
      return true;
    }

    method CreateGrant(g: Grant)
      modifies this
      ensures State() == Steps.CreateGrant(old(State()), g)
    {
      grants := grants[g.id := g];
    }

    method GetGrant(id: string) returns (g: Option<Grant>)
      ensures g == Steps.GetGrant(State(), id)
    {
      return if id in grants then Some(grants[id]) else None;
    }

    method UpdateGrantStatus(id: string, status: Status, revokedAt: Option<Option<Date>>)
      modifies this
      ensures State() == Steps.UpdateGrantStatus(old(State()), id, status, revokedAt)
    {
      if id !in grants { return; }
      var g := grants[id].(status := status);
      if revokedAt.Some? { g := g.(revokedAt := revokedAt.value); }
      grants := grants[id := g];
    }

    method CreateRequest(r: Request)
      modifies this
      ensures State() == Steps.CreateRequest(old(State()), r)
    {
      requests := requests[r.id := r];
    }

    method GetRequest(id: string) returns (r: Option<Request>)
      ensures r == Steps.GetRequest(State(), id)
    {
      return if id in requests then Some(requests[id]) else None;
    }

    method ResolveRequest(id: string, status: Status, grantId: Option<string>, now: int)
      modifies this
      ensures State() == Steps.ResolveRequest(old(State()), id, status, grantId, now)
    {
      if id in requests {
        var r := requests[id].(status := status, grantId := grantId);
        requests := requests[id := r.(resolvedAt := Some(At(now)))];
      }
    }

    method TryConsumeJti(jti: string) returns (first: bool)
      modifies this
      ensures (State(), first) == Steps.TryConsumeJti(old(State()), jti)
    {
      if jti in consumed {
        assert consumed + {jti} == consumed;
        return false;
      }
      consumed := consumed + {jti};
      return true;
    }
  }
}

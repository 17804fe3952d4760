/** The three listings: rows of a query, in its order, reconstructed into domain values, the
    membership listing by joining two queries through a map. */
module Listings {
  import opened Domain
  import opened Subdomains
  import opened TenantContext
  import opened Rows

  // ---------------------------------------------------------------- all rows, or the first error

  /** f on every row in order, or the error of the first row that has one. */
  ghost function Traverse<A(!new), B>(f: A -> Result<B>, rows: seq<A>): Result<seq<B>> {
    if rows == [] then Ok([])
    else
      var n := |rows| - 1;
      var done := Traverse(f, rows[..n]);
      if done.Err? then done
      else if f(rows[n]).Err? then Err(f(rows[n]).error)
      else Ok(done.value + [f(rows[n]).value])
  }

  lemma {:induction false} TraverseMeaning<A(!new), B>(f: A -> Result<B>, rows: seq<A>)
    ensures var r := Traverse(f, rows);
            if forall i :: 0 <= i < |rows| ==> f(rows[i]).Ok? then
              r.Ok? && |r.value| == |rows| && forall i :: 0 <= i < |rows| ==> r.value[i] == f(rows[i]).value
            else
              exists i :: 0 <= i < |rows| && f(rows[i]).Err? && r == Err(f(rows[i]).error) && forall j :: 0 <= j < i ==> f(rows[j]).Ok?
    decreases |rows|
  {
    if rows != [] {
      var n := |rows| - 1;
      var front := rows[..n];
      TraverseMeaning(f, front);
      assert forall i :: 0 <= i < n ==> front[i] == rows[i];
      if i :| 0 <= i < |front| && f(front[i]).Err? && Traverse(f, front) == Err(f(front[i]).error) &&
              forall j :: 0 <= j < i ==> f(front[j]).Ok? {
        assert f(rows[i]).Err?;
      }
    }
  }

  lemma {:induction false} TraverseErrorStays<A(!new), B>(f: A -> Result<B>, rows: seq<A>, i: nat)
    requires i < |rows| && Traverse(f, rows[..i + 1]).Err?
    ensures Traverse(f, rows) == Err(Traverse(f, rows[..i + 1]).error)
    decreases |rows|
  {
    if i + 1 == |rows| {
      assert rows[..i + 1] == rows;
    } else {
      var n := |rows| - 1;
      assert rows[..n][..i + 1] == rows[..i + 1];
      TraverseErrorStays(f, rows[..n], i);
    }
  }

  lemma TraverseStep<A(!new), B>(f: A -> Result<B>, rows: seq<A>, i: nat)
    requires i < |rows| && Traverse(f, rows[..i]).Ok?
    ensures Traverse(f, rows[..i + 1]) ==
              if f(rows[i]).Err? then Err(f(rows[i]).error) else Ok(Traverse(f, rows[..i]).value + [f(rows[i]).value])
  {
    assert rows[..i + 1][..i] == rows[..i];
  }

  lemma {:induction false} TraverseSame<A(!new), B>(f: A -> Result<B>, g: A -> Result<B>, rows: seq<A>)
    requires forall a :: a in rows ==> f(a) == g(a)
    ensures Traverse(f, rows) == Traverse(g, rows)
    decreases |rows|
  {
    if rows != [] { TraverseSame(f, g, rows[..|rows| - 1]); }
  }

  // ---------------------------------------------------------------- memberships

  datatype MembershipRow = MembershipRow(tenantId: Id, tenantPublicId: Id, userId: Id, tenantRole: string,
      displayName: string, joinedAt: int)

  datatype EventRoleRow = EventRoleRow(tenantId: Id, userId: Id, eventId: Id, eventPublicId: Id, role: string)

  datatype EventRoleView = EventRoleView(eventId: Id, eventPublicId: Id, role: Role)

  datatype Membership = Membership(userId: Id, tenantId: Id, tenantPublicId: Id, role: Role, name: string, joinedAt: int,
                                   eventRoles: seq<EventRoleView>)

  datatype Key = Key(tenantId: Id, userId: Id)

  function KeyOf(m: MembershipRow): Key { Key(m.tenantId, m.userId) }
  function RoleKeyOf(r: EventRoleRow): Key { Key(r.tenantId, r.userId) }

  ghost predicate RoleParses(r: EventRoleRow) { RoleNamed(r.role).Ok? }

  ghost function ViewOf(r: EventRoleRow): EventRoleView
    requires RoleParses(r)
  {
    EventRoleView(r.eventId, r.eventPublicId, RoleNamed(r.role).value)
  }

  /** The plain definition: the event roles of one membership, in the order of the rows. */
  ghost function RolesOf(k: Key, rs: seq<EventRoleRow>): seq<EventRoleView> {
    if rs == [] then []
    else
      var n := |rs| - 1;
      RolesOf(k, rs[..n]) + if RoleKeyOf(rs[n]) == k && RoleParses(rs[n]) then [ViewOf(rs[n])] else []
  }

  /** One membership, by itself. */
  ghost function MembershipDomain(ctx: Ctx, rs: seq<EventRoleRow>, m: MembershipRow): Result<Membership> {
    var role, name := RoleNamed(m.tenantRole), ParseDisplayName(m.displayName);
    if VerifyOwnership(ctx, m.tenantPublicId).Some? then Err(VerifyOwnership(ctx, m.tenantPublicId).value)
    else if role.Err? then Err(role.error)
    else if name.Err? then Err(name.error)
    else Ok(Membership(m.userId, m.tenantId, m.tenantPublicId, role.value, name.value, m.joinedAt, RolesOf(KeyOf(m), rs)))
  }

  ghost function Listed(ctx: Ctx, rows: seq<MembershipRow>, rs: seq<EventRoleRow>): Result<seq<Membership>> {
    if rows == [] then Ok([])
    else if exists i :: 0 <= i < |rs| && !RoleParses(rs[i]) then Err(ParseFailure)
    else Traverse((m: MembershipRow) => MembershipDomain(ctx, rs, m), rows)
  }

  /** Reading a key that the map lacks gives the empty list. */
  function RolesAt(grouped: map<Key, seq<EventRoleView>>, k: Key): seq<EventRoleView> { if k in grouped then grouped[k] else [] }

  ghost predicate Groups(grouped: map<Key, seq<EventRoleView>>,
      rs: seq<EventRoleRow>) { forall k :: RolesAt(grouped, k) == RolesOf(k, rs) }

  lemma GroupStep(grouped: map<Key, seq<EventRoleView>>, rs: seq<EventRoleRow>, i: nat)
    requires i < |rs| && RoleParses(rs[i]) && Groups(grouped, rs[..i])
    ensures var k := RoleKeyOf(rs[i]); Groups(grouped[k := RolesAt(grouped, k) + [ViewOf(rs[i])]], rs[..i + 1])
  {
    hide RoleNamed;
    assert rs[..i + 1][..i] == rs[..i];
    var key := RoleKeyOf(rs[i]);
    var grouped' := grouped[key := RolesAt(grouped, key) + [ViewOf(rs[i])]];
    forall k ensures RolesAt(grouped', k) == RolesOf(k, rs[..i + 1]) {
      assert RolesAt(grouped, k) == RolesOf(k, rs[..i]);
    }
  }

  /** The first loop of listMemberships: event roles grouped by membership. */
  method GroupEventRoles(rs: seq<EventRoleRow>) returns (r: Result<map<Key, seq<EventRoleView>>>)
    ensures r.Err? ==> r.error == ParseFailure && exists i :: 0 <= i < |rs| && !RoleParses(rs[i])
    ensures r.Ok? ==> forall i :: 0 <= i < |rs| ==> RoleParses(rs[i])
    ensures r.Ok? ==> Groups(r.value, rs)
  {
    hide RoleNamed, Groups;
    assert Groups(map[], rs[..0]) by { NothingGrouped(rs); }
    var eventRoles: map<Key, seq<EventRoleView>> := map[];
    for i := 0 to |rs|
      invariant forall j :: 0 <= j < i ==> RoleParses(rs[j])
      invariant Groups(eventRoles, rs[..i])
    {
      var role := ParseRole(rs[i].role);
      if role.Err? {
        RoleErrors(rs[i].role);
        assert !RoleParses(rs[i]);
        return Err(role.error);
      }
      GroupStep(eventRoles, rs, i);
      var k := Key(rs[i].tenantId, rs[i].userId);
      eventRoles := eventRoles[k := RolesAt(eventRoles, k) + [EventRoleView(rs[i].eventId, rs[i].eventPublicId, role.value)]];
    }
    assert rs[..|rs|] == rs;
    return Ok(eventRoles);
  }

  lemma NothingGrouped(rs: seq<EventRoleRow>)
    ensures Groups(map[], rs[..0])
  {
  }

  lemma RoleErrors(s: string)
    ensures RoleNamed(s).Err? ==> RoleNamed(s).error == ParseFailure
  {
  }

  /** listMemberships, past its two queries: group the event roles in a map, then reconstruct the
      memberships one row at a time. */
  method ListMemberships(ctx: Ctx, rows: seq<MembershipRow>, rs: seq<EventRoleRow>) returns (r: Result<seq<Membership>>)
    ensures r == Listed(ctx, rows, rs)
    ensures r.Ok? && TenantOf(ctx).Some? ==> forall m :: m in r.value ==> m.tenantPublicId == TenantOf(ctx).value
  {
    hide RoleNamed, ParseDisplayName, TenantOf, RoleParses, RolesOf;
    if rows == [] {
      return Ok([]);
    }
    var grouped := GroupEventRoles(rs);
    if grouped.Err? {
      return Err(grouped.error);
    }
    var eventRoles := grouped.value;
    var memberships: seq<Membership> := [];
    ghost var f := (m: MembershipRow) => MembershipDomain(ctx, rs, m);
    for i := 0 to |rows|
      invariant Traverse(f, rows[..i]) == Ok(memberships)
      invariant TenantOf(ctx).Some? ==> forall m :: m in memberships ==> m.tenantPublicId == TenantOf(ctx).value
    {
      TraverseStep(f, rows, i);
      if f(rows[i]).Err? { TraverseErrorStays(f, rows, i); }
      var row := rows[i];
      BoundaryChecks(ctx, row.tenantPublicId, "", None);
      var foreign := VerifyOwnership(ctx, row.tenantPublicId);
      if foreign.Some? {
        return Err(foreign.value);
      }
      var role := ParseRole(row.tenantRole);
      if role.Err? {
        return Err(role.error);
      }
      var name := ParseDisplayName(row.displayName);
      if name.Err? {
        return Err(name.error);
      }
      var k := Key(row.tenantId, row.userId);
      memberships := memberships + [Membership(row.userId, row.tenantId, row.tenantPublicId, role.value, name.value, row.joinedAt,
                                               RolesAt(eventRoles, k))];
    }
    assert rows[..|rows|] == rows;
    return Ok(memberships);
  }

  /** One result per membership row, in order, each with its own event roles; or, when a row of the
      context's tenant does not parse or a row of another tenant shows up, an error and no results. */
  lemma ListedMeaning(ctx: Ctx, rows: seq<MembershipRow>, rs: seq<EventRoleRow>)
    requires rows != []
    ensures Listed(ctx, rows, rs).Ok? <==> (forall i :: 0 <= i < |rs| ==> RoleParses(rs[i])) &&
                                           (forall i :: 0 <= i < |rows| ==> MembershipDomain(ctx, rs, rows[i]).Ok?)
    ensures Listed(ctx, rows, rs).Ok? ==>
              var ms := Listed(ctx, rows, rs).value;
              |ms| == |rows| &&
              forall i :: 0 <= i < |rows| ==>
                            MembershipDomain(ctx, rs, rows[i]) == Ok(ms[i]) && ms[i].userId == rows[i].userId &&
                            ms[i].tenantId == rows[i].tenantId && ms[i].eventRoles == RolesOf(KeyOf(rows[i]), rs)
  {
    hide RoleNamed, ParseDisplayName, VerifyOwnership, RolesOf, Traverse, RoleParses;
    TraverseMeaning((m: MembershipRow) => MembershipDomain(ctx, rs, m), rows);
  }

  /** The roles of a membership are exactly the ones its rows name. */
  lemma {:induction false} RolesOfExactly(k: Key, rs: seq<EventRoleRow>, v: EventRoleView)
    ensures v in RolesOf(k, rs) <==> exists i :: 0 <= i < |rs| && RoleKeyOf(rs[i]) == k && RoleParses(rs[i]) && ViewOf(rs[i]) == v
    decreases |rs|
  {
    hide RoleNamed;
    if rs != [] {
      var n := |rs| - 1;
      var front := rs[..n];
      RolesOfExactly(k, front, v);
      assert forall i :: 0 <= i < n ==> front[i] == rs[i];
      if v in RolesOf(k, rs) && v !in RolesOf(k, front) { assert ViewOf(rs[n]) == v; }
      if v in RolesOf(k, front) {
        var i :| 0 <= i < |front| && RoleKeyOf(front[i]) == k && RoleParses(front[i]) && ViewOf(front[i]) == v;
        assert RoleKeyOf(rs[i]) == k && RoleParses(rs[i]) && ViewOf(rs[i]) == v;
      }
      if i :| 0 <= i < |rs| && RoleKeyOf(rs[i]) == k && RoleParses(rs[i]) && ViewOf(rs[i]) == v {
        if i < n { assert RoleKeyOf(front[i]) == k && RoleParses(front[i]) && ViewOf(front[i]) == v; }
      }
    }
  }

  // Conservation: no event role is lost or handed out twice.

  ghost function RolesHandedOut(rows: seq<MembershipRow>, rs: seq<EventRoleRow>): nat {
    if rows == [] then 0 else |RolesOf(KeyOf(rows[0]), rs)| + RolesHandedOut(rows[1..], rs)
  }

  predicate DistinctKeys(rows: seq<MembershipRow>) { forall i, j :: 0 <= i < j < |rows| ==> KeyOf(rows[i]) != KeyOf(rows[j]) }

  lemma {:induction false} NoneHandedOut(rows: seq<MembershipRow>)
    ensures RolesHandedOut(rows, []) == 0
  {
    if rows != [] { NoneHandedOut(rows[1..]); }
  }

  lemma {:induction false} OneMoreRole(rows: seq<MembershipRow>, rs: seq<EventRoleRow>, r: EventRoleRow)
    requires DistinctKeys(rows) && RoleParses(r)
    ensures RolesHandedOut(rows, rs + [r]) ==
              RolesHandedOut(rows, rs) + if exists i :: 0 <= i < |rows| && KeyOf(rows[i]) == RoleKeyOf(r) then 1 else 0
  {
    assert (rs + [r])[..|rs|] == rs;
    if rows != [] {
      var rest := rows[1..];
      forall i, j | 0 <= i < j < |rest| ensures KeyOf(rest[i]) != KeyOf(rest[j]) {
        assert rest[i] == rows[i + 1] && rest[j] == rows[j + 1];
      }
      OneMoreRole(rest, rs, r);
      if i :| 0 <= i < |rows| && KeyOf(rows[i]) == RoleKeyOf(r) {
        if i > 0 { assert KeyOf(rest[i - 1]) == RoleKeyOf(r); }
      }
      if i :| 0 <= i < |rest| && KeyOf(rest[i]) == RoleKeyOf(r) {
        assert KeyOf(rows[i + 1]) == RoleKeyOf(r) && KeyOf(rows[0]) != KeyOf(rows[i + 1]);
      }
    }
  }

  /** An event-role row that parses and whose membership is listed. */
  ghost predicate Housed(rows: seq<MembershipRow>, r: EventRoleRow) {
    RoleParses(r) && exists i :: 0 <= i < |rows| && KeyOf(rows[i]) == RoleKeyOf(r)
  }

  /** Every event-role row ends up with exactly one of the memberships. */
  lemma {:induction false} RolesAreConserved(rows: seq<MembershipRow>, rs: seq<EventRoleRow>)
    requires DistinctKeys(rows)
    requires forall i :: 0 <= i < |rs| ==> Housed(rows, rs[i])
    ensures RolesHandedOut(rows, rs) == |rs|
    decreases |rs|
  {
    if rs == [] {
      NoneHandedOut(rows);
    } else {
      var n := |rs| - 1;
      var front := rs[..n];
      forall i | 0 <= i < |front| ensures Housed(rows, front[i]) { assert front[i] == rs[i]; }
      RolesAreConserved(rows, front);
      assert Housed(rows, rs[n]);
      OneMoreRole(rows, rs[..n], rs[n]);
      assert rs[..n] + [rs[n]] == rs;
    }
  }

  // ---------------------------------------------------------------- invitations

  /** ListOpenInvitations, past its query. */
  method ListOpenInvitations(rows: seq<InvitationColumns>) returns (r: Result<seq<InvitationModel>>)
    ensures r == Traverse((i: InvitationColumns) => InvitationDomain(i), rows)
  {
    var invitations: seq<InvitationModel> := [];
    ghost var f := (i: InvitationColumns) => InvitationDomain(i);
    for k := 0 to |rows|
      invariant Traverse(f, rows[..k]) == Ok(invitations)
    {
      TraverseStep(f, rows, k);
      if f(rows[k]).Err? { TraverseErrorStays(f, rows, k); }
      var invitation := ReconstructInvitation(rows[k]);
      if invitation.Err? {
        return Err(invitation.error);
      }
      invitations := invitations + [invitation.value];
    }
    assert rows[..|rows|] == rows;
    return Ok(invitations);
  }

  /** invitationRow.domain. */
  method ReconstructInvitation(row: InvitationColumns) returns (r: Result<InvitationModel>)
    ensures r == InvitationDomain(row)
  {
    var role := ParseRole(row.tenantRole);
    if role.Err? {
      return Err(role.error);
    }
    var name := ParseDisplayName(row.displayName);
    if name.Err? {
      return Err(name.error);
    }
    var state := InvitationPending;
    if row.acceptedAt.Some? {
      state := InvitationAccepted;
    } else if row.revokedAt.Some? {
      state := InvitationRevoked;
    }
    return Ok(InvitationModel(row.publicId, row.tenantId, role.value, name.value, row.expiresAt, state));
  }

  // ---------------------------------------------------------------- events

  datatype EventColumns = EventColumns(id: Id, publicId: Id, tenantId: Id, tenantPublicId: Id, name: string, status: string)

  datatype EventModel = EventModel(id: Id, event: Event)

  /** eventRow.domain. */
  ghost function EventDomain(ctx: Ctx, row: EventColumns): Result<EventModel> {
    var status := StatusNamed(row.status);
    if status.Err? then Err(status.error)
    else if VerifyOwnership(ctx, row.tenantPublicId).Some? then Err(VerifyOwnership(ctx, row.tenantPublicId).value)
    else Ok(EventModel(row.id, Event(row.publicId, row.tenantId, row.tenantPublicId, row.name, status.value)))
  }

  /** ListEventsByTenantID, past its query: the result array is filled row by row. */
  method ListEvents(ctx: Ctx, rows: seq<EventColumns>) returns (r: Result<seq<EventModel>>)
    ensures r == Traverse((e: EventColumns) => EventDomain(ctx, e), rows)
    ensures r.Ok? && TenantOf(ctx).Some? ==> forall e :: e in r.value ==> e.event.tenantPublicId == TenantOf(ctx).value
  {
    hide StatusNamed, TenantOf;
    var events := new EventModel[|rows|];
    ghost var f := (e: EventColumns) => EventDomain(ctx, e);
    for i := 0 to |rows|
      invariant Traverse(f, rows[..i]) == Ok(events[..i])
      invariant TenantOf(ctx).Some? ==> forall j :: 0 <= j < i ==> events[j].event.tenantPublicId == TenantOf(ctx).value
    {
      TraverseStep(f, rows, i);
      if f(rows[i]).Err? { TraverseErrorStays(f, rows, i); }
      var row := rows[i];
      BoundaryChecks(ctx, row.tenantPublicId, "", None);
      var status := ParseEventStatus(row.status);
      if status.Err? {
        return Err(status.error);
      }
      var foreign := VerifyOwnership(ctx, row.tenantPublicId);
      if foreign.Some? {
        return Err(foreign.value);
      }
      ghost var before := events[..i];
      events[i] := EventModel(row.id, Event(row.publicId, row.tenantId, row.tenantPublicId, row.name, status.value));
      assert events[..i + 1] == before + [events[i]];
    }
    assert rows[..|rows|] == rows && events[..|rows|] == events[..];
    return Ok(events[..]);
  }
}

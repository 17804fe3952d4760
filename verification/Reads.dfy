/** The listings as reads of one tenant: what a caller is shown depends on the rows of the
    caller's own tenant alone. */
module TenantReads {
  import opened Domain
  import opened Subdomains
  import opened TenantContext
  import opened Tables
  import opened AtomicLaws
  import opened Refinement
  import opened Rows
  import opened Listings

  /** What the queries order by beyond the tables: insertion times, and the order of text columns. */
  datatype Order = Order(joined: MemberKey -> int, created: Id -> int, before: (Id, Id) -> bool)

  ghost predicate Total(before: (Id, Id) -> bool) {
    (forall a :: !before(a, a)) && (forall a, b, c :: before(a, b) && before(b, c) ==> before(a, c)) &&
    (forall a, b :: a != b ==> before(a, b) || before(b, a))
  }

  // ---------------------------------------------------------------- an ordered answer is determined

  ghost predicate Sorted<T(!new)>(rows: seq<T>, less: (T, T) -> bool) { forall i,
      j :: 0 <= i < j < |rows| ==> less(rows[i], rows[j]) }

  ghost predicate Strict<T(!new)>(less: (T, T) -> bool) {
    (forall a :: !less(a, a)) && (forall a, b, c :: less(a, b) && less(b, c) ==> less(a, c))
  }

  lemma FirstOrLater<T(!new)>(rows: seq<T>, less: (T, T) -> bool, r: T)
    requires Sorted(rows, less) && r in rows
    ensures r == rows[0] || less(rows[0], r)
  {
  }

  lemma SomeRow<T(!new)>(rows: seq<T>)
    ensures rows == [] || exists r :: r in rows
  {
    if rows != [] { assert rows[0] in rows; }
  }

  /** Two answers in the same strict order with the same rows are the same answer. */
  lemma {:induction false} AnswersCoincide<T(!new)>(a: seq<T>, b: seq<T>, less: (T, T) -> bool)
    requires Strict(less) && Sorted(a, less) && Sorted(b, less) && forall r :: r in a <==> r in b
    ensures a == b
    decreases |a|
  {
    if a == [] {
      SomeRow(b);
    } else {
      assert a[0] in b && b[0] in b;
      FirstOrLater(b, less, a[0]);
      FirstOrLater(a, less, b[0]);
      assert a[0] == b[0];
      forall r ensures r in a[1..] <==> r in b[1..] {
        if r in a[1..] {
          assert r in b && less(a[0], r) && r != b[0];
        }
        if r in b[1..] {
          assert r in a && less(b[0], r) && r != a[0];
        }
      }
      AnswersCoincide(a[1..], b[1..], less);
    }
  }

  // ---------------------------------------------------------------- the queries

  predicate WantedUser(user: Option<Id>, u: Id) { user.None? || user.value == u }

  predicate IsMemberRow(db: Db, o: Order, t: Id, user: Option<Id>, row: MembershipRow) {
    var k := MemberKey(row.tenantId, row.userId);
    row.tenantId == t && WantedUser(user, row.userId) && k in db.members && t in db.tenants &&
    row == MembershipRow(t, db.tenants[t].publicId, row.userId, RoleString(db.members[k].role), db.members[k].name, o.joined(k))
  }

  /** ORDER BY tenant_id, joined_at, user_id, within one tenant. */
  ghost function MemberOrder(o: Order): (MembershipRow, MembershipRow) -> bool {
    (a: MembershipRow, b: MembershipRow) => a.joinedAt < b.joinedAt || (a.joinedAt == b.joinedAt && o.before(a.userId, b.userId))
  }

  ghost predicate MemberAnswer(db: Db, o: Order, t: Id, user: Option<Id>, rows: seq<MembershipRow>) {
    Sorted(rows, MemberOrder(o)) && forall r :: r in rows <==> IsMemberRow(db, o, t, user, r)
  }

  predicate IsRoleRow(db: Db, t: Id, user: Option<Id>, row: EventRoleRow) {
    var k := RoleKey(row.eventId, row.userId);
    row.tenantId == t && WantedUser(user, row.userId) && RoleOf(db.eventRoles, t, k) && MemberKey(t, row.userId) in db.members &&
    row.eventId in db.events && row.eventPublicId == db.events[row.eventId].publicId && row.role == RoleString(db.eventRoles[k].role)
  }

  /** ORDER BY event_id alone leaves rows of one event in any order. */
  ghost predicate RoleAnswer(db: Db, o: Order, t: Id, user: Option<Id>, rs: seq<EventRoleRow>) {
    (forall i, j :: 0 <= i < j < |rs| ==> rs[i] != rs[j] && !o.before(rs[j].eventId, rs[i].eventId)) &&
    (forall r :: r in rs <==> IsRoleRow(db, t, user, r))
  }

  /** A row of the invitation listing: open at now. */
  datatype StoredInvitation = StoredInvitation(id: Id, columns: InvitationColumns)

  predicate IsOpenRow(db: Db, t: Id, now: int, row: StoredInvitation) {
    row.id in db.invitations && row.columns == EncodeInvitation(db.invitations[row.id]) && row.columns.tenantId == t &&
    row.columns.acceptedAt.None? && row.columns.revokedAt.None? && row.columns.expiresAt > now
  }

  ghost function InvitationOrder(o: Order): (StoredInvitation, StoredInvitation) -> bool {
    (a: StoredInvitation, b: StoredInvitation) =>
      o.created(a.id) < o.created(b.id) || (o.created(a.id) == o.created(b.id) && o.before(a.id, b.id))
  }

  ghost predicate OpenAnswer(db: Db, o: Order, t: Id, now: int, rows: seq<StoredInvitation>) {
    Sorted(rows, InvitationOrder(o)) && forall r :: r in rows <==> IsOpenRow(db, t, now, r)
  }

  const MaxListEvents := 1000

  predicate IsEventRow(db: Db, t: Id, includeArchived: bool, row: EventColumns) {
    row.id in db.events && EventOf(db.events, t, row.id) &&
    var e := db.events[row.id];
    row == EventColumns(row.id, e.publicId, e.tenantId, e.tenantPublicId, e.name, StatusString(e.status)) &&
    (includeArchived || row.status != StatusString(Archived))
  }

  ghost function EventOrder(o: Order): (EventColumns, EventColumns) -> bool {
    (a: EventColumns, b: EventColumns) => o.before(a.id, b.id)
  }

  /** The first rows of the ordered events, capped. */
  ghost predicate EventAnswer(db: Db, o: Order, t: Id, includeArchived: bool, rows: seq<EventColumns>) {
    exists all: seq<EventColumns> :: AllEvents(db, o, t, includeArchived, all) &&
      rows == if |all| <= MaxListEvents then all else all[..MaxListEvents]
  }

  ghost predicate AllEvents(db: Db, o: Order, t: Id, includeArchived: bool, all: seq<EventColumns>) {
    Sorted(all, EventOrder(o)) && forall r :: r in all <==> IsEventRow(db, t, includeArchived, r)
  }

  ghost function ViewOrder(before: (Id, Id) -> bool): (EventRoleView, EventRoleView) -> bool {
    (a: EventRoleView, b: EventRoleView) => before(a.eventId, b.eventId)
  }

  lemma OrdersAreStrict(o: Order)
    requires Total(o.before)
    ensures Strict(MemberOrder(o)) && Strict(InvitationOrder(o)) && Strict(EventOrder(o)) && Strict(ViewOrder(o.before))
  {
    MemberOrderIsStrict(o);
    InvitationOrderIsStrict(o);
    var less := EventOrder(o);
    forall a ensures !less(a, a) { assert !o.before(a.id, a.id); }
    forall a, b, c | less(a, b) && less(b, c) ensures less(a, c) {
      assert o.before(a.id, b.id) && o.before(b.id, c.id);
    }
    var below := ViewOrder(o.before);
    forall a ensures !below(a, a) { assert !o.before(a.eventId, a.eventId); }
    forall a, b, c | below(a, b) && below(b, c) ensures below(a, c) {
      assert o.before(a.eventId, b.eventId) && o.before(b.eventId, c.eventId);
    }
  }

  lemma MemberOrderIsStrict(o: Order)
    requires Total(o.before)
    ensures Strict(MemberOrder(o))
  {
    var less := MemberOrder(o);
    forall a ensures !less(a, a) { assert !o.before(a.userId, a.userId); }
    forall a, b, c | less(a, b) && less(b, c) ensures less(a, c) {
      if o.before(a.userId, b.userId) && o.before(b.userId, c.userId) { assert o.before(a.userId, c.userId); }
    }
  }

  lemma InvitationOrderIsStrict(o: Order)
    requires Total(o.before)
    ensures Strict(InvitationOrder(o))
  {
    var less := InvitationOrder(o);
    forall a ensures !less(a, a) { assert !o.before(a.id, a.id); }
    forall a, b, c | less(a, b) && less(b, c) ensures less(a, c) {
      if o.before(a.id, b.id) && o.before(b.id, c.id) { assert o.before(a.id, c.id); }
    }
  }

  // ---------------------------------------------------------------- two databases that agree on the tenant

  /** Two database states, and insertion times, that agree on tenant t. */
  ghost predicate SameTenant(db: Db, o: Order, db': Db, o': Order, t: Id) {
    Agree(db, db', t) && o.before == o'.before && o.created == o'.created &&
    forall u :: o.joined(MemberKey(t, u)) == o'.joined(MemberKey(t, u))
  }

  lemma MembersDetermined(db: Db, o: Order, db': Db, o': Order, t: Id, user: Option<Id>, rows: seq<MembershipRow>,
      rows': seq<MembershipRow>)
    requires SameTenant(db, o, db', o', t) && Total(o.before)
    requires MemberAnswer(db, o, t, user, rows) && MemberAnswer(db', o', t, user, rows')
    ensures rows == rows'
  {
    hide AgreeEvents, AgreeRoles, AgreeInvitations, RoleString, Total, Strict;
    OrdersAreStrict(o);
    forall r ensures r in rows <==> r in rows' {
      assert IsMemberRow(db, o, t, user, r) <==> IsMemberRow(db', o', t, user, r);
    }
    assert Sorted(rows', MemberOrder(o));
    AnswersCoincide(rows, rows', MemberOrder(o));
  }

  /** The event-role rows of one member come in event order. */
  ghost predicate OrderedFor(k: Key, rs: seq<EventRoleRow>, before: (Id, Id) -> bool) {
    forall i, j :: 0 <= i < j < |rs| && RoleKeyOf(rs[i]) == k && RoleKeyOf(rs[j]) == k ==> before(rs[i].eventId, rs[j].eventId)
  }

  lemma {:induction false} RolesComeInOrder(k: Key, rs: seq<EventRoleRow>, before: (Id, Id) -> bool)
    requires OrderedFor(k, rs, before)
    ensures Sorted(RolesOf(k, rs), ViewOrder(before))
    decreases |rs|
  {
    hide RoleNamed;
    if rs != [] {
      var n := |rs| - 1;
      var front := rs[..n];
      RolesComeInOrder(k, front, before);
      if RoleKeyOf(rs[n]) == k && RoleParses(rs[n]) {
        forall v | v in RolesOf(k, front) ensures before(v.eventId, rs[n].eventId) {
          RolesOfExactly(k, front, v);
          var i :| 0 <= i < |front| && RoleKeyOf(front[i]) == k && RoleParses(front[i]) && ViewOf(front[i]) == v;
          assert front[i] == rs[i];
        }
      }
    }
  }

  lemma RoleRowsOrdered(db: Db, o: Order, t: Id, user: Option<Id>, rs: seq<EventRoleRow>, k: Key)
    requires RoleAnswer(db, o, t, user, rs) && Total(o.before)
    ensures OrderedFor(k, rs, o.before)
  {
    forall i, j | 0 <= i < j < |rs| && RoleKeyOf(rs[i]) == k && RoleKeyOf(rs[j]) == k ensures o.before(rs[i].eventId, rs[j].eventId) {
      assert rs[i] in rs && rs[j] in rs;
      assert IsRoleRow(db, t, user, rs[i]) && IsRoleRow(db, t, user, rs[j]);
      assert rs[i].eventId != rs[j].eventId;
    }
  }

  lemma RoleRowsAgree(db: Db, o: Order, db': Db, o': Order, t: Id, user: Option<Id>, r: EventRoleRow)
    requires SameTenant(db, o, db', o', t) && DbOk(db) && DbOk(db')
    ensures IsRoleRow(db, t, user, r) <==> IsRoleRow(db', t, user, r)
  {
    hide DbOk, RoleString;
    var k := RoleKey(r.eventId, r.userId);
    assert RoleOf(db.eventRoles, t, k) <==> RoleOf(db'.eventRoles, t, k);
    if RoleOf(db.eventRoles, t, k) {
      RoleHome(db, k);
      RoleHome(db', k);
      assert EventOf(db.events, t, k.event) && EventOf(db'.events, t, k.event);
    }
  }

  /** However the database breaks ties between event roles, each membership is handed the same list. */
  lemma RolesDetermined(db: Db, o: Order, db': Db, o': Order, t: Id, user: Option<Id>, rs: seq<EventRoleRow>,
      rs': seq<EventRoleRow>, k: Key)
    requires SameTenant(db, o, db', o', t) && DbOk(db) && DbOk(db') && Total(o.before)
    requires RoleAnswer(db, o, t, user, rs) && RoleAnswer(db', o', t, user, rs')
    ensures RolesOf(k, rs) == RolesOf(k, rs')
    ensures forall r :: r in rs <==> r in rs'
  {
    hide DbOk, RoleNamed, Agree, IsRoleRow, Total, Strict, RolesOf, OrderedFor;
    OrdersAreStrict(o);
    forall r ensures r in rs <==> r in rs' { RoleRowsAgree(db, o, db', o', t, user, r); }
    RoleRowsOrdered(db, o, t, user, rs, k);
    RoleRowsOrdered(db', o', t, user, rs', k);
    RolesComeInOrder(k, rs, o.before);
    RolesComeInOrder(k, rs', o.before);
    forall v ensures v in RolesOf(k, rs) <==> v in RolesOf(k, rs') {
      if v in RolesOf(k, rs) { RolesOfSame(k, rs, rs', v); }
      if v in RolesOf(k, rs') { RolesOfSame(k, rs', rs, v); }
    }
    AnswersCoincide(RolesOf(k, rs), RolesOf(k, rs'), ViewOrder(o.before));
  }

  lemma RolesOfSame(k: Key, rs: seq<EventRoleRow>, rs': seq<EventRoleRow>, v: EventRoleView)
    requires (forall r :: r in rs ==> r in rs') && v in RolesOf(k, rs)
    ensures v in RolesOf(k, rs')
  {
    hide RoleNamed, RolesOf;
    RolesOfExactly(k, rs, v);
    RolesOfExactly(k, rs', v);
    var i :| 0 <= i < |rs| && RoleKeyOf(rs[i]) == k && RoleParses(rs[i]) && ViewOf(rs[i]) == v;
    assert rs[i] in rs;
    var j :| 0 <= j < |rs'| && rs'[j] == rs[i];
  }

  /** What the queries of one read see. Each is a statement of its own, with its own snapshot. */
  datatype Reading = Reading(gate: Db, rows: Db, roles: Db, order: Order)

  /** Two readings that agree on tenant t, query by query. */
  ghost predicate SameReading(a: Reading, b: Reading, t: Id) {
    SameTenant(a.rows, a.order, b.rows, b.order, t) && SameTenant(a.roles, a.order, b.roles, b.order, t)
  }

  ghost predicate ReadingOk(a: Reading) { DbOk(a.gate) && DbOk(a.rows) && DbOk(a.roles) && Total(a.order.before) }

  /** The membership listing shows the same memberships, with the same event roles in the same
      order, on any two databases that agree on the tenant. */
  lemma MembershipListingIsIsolated(ctx: Ctx, a: Reading, b: Reading, t: Id, user: Option<Id>,
      rows: seq<MembershipRow>, rs: seq<EventRoleRow>, rows': seq<MembershipRow>, rs': seq<EventRoleRow>)
    requires ReadingOk(a) && ReadingOk(b) && SameReading(a, b, t)
    requires MemberAnswer(a.rows, a.order, t, user, rows) && RoleAnswer(a.roles, a.order, t, user, rs)
    requires MemberAnswer(b.rows, b.order, t, user, rows') && RoleAnswer(b.roles, b.order, t, user, rs')
    ensures Listed(ctx, rows, rs) == Listed(ctx, rows', rs')
  {
    hide DbOk, SameTenant, MemberAnswer, RoleAnswer, Total, RoleNamed, RolesOf, Traverse, ParseDisplayName,
         VerifyOwnership;
    MembersDetermined(a.rows, a.order, b.rows, b.order, t, user, rows, rows');
    forall k ensures RolesOf(k, rs) == RolesOf(k, rs') { RolesDetermined(a.roles, a.order, b.roles, b.order, t, user, rs, rs', k); }
    RolesDetermined(a.roles, a.order, b.roles, b.order, t, user, rs, rs', Key("", ""));
    ListedSame(ctx, rows, rs, rs');
  }

  lemma ListedSame(ctx: Ctx, rows: seq<MembershipRow>, rs: seq<EventRoleRow>, rs': seq<EventRoleRow>)
    requires (forall k :: RolesOf(k, rs) == RolesOf(k, rs')) && (forall r :: r in rs <==> r in rs')
    ensures Listed(ctx, rows, rs) == Listed(ctx, rows, rs')
  {
    hide RoleNamed, RolesOf, ParseDisplayName, VerifyOwnership;
    assert (exists i :: 0 <= i < |rs| && !RoleParses(rs[i])) <==> (exists i :: 0 <= i < |rs'| && !RoleParses(rs'[i])) by {
      if i :| 0 <= i < |rs| && !RoleParses(rs[i]) { assert rs[i] in rs; }
      if i :| 0 <= i < |rs'| && !RoleParses(rs'[i]) { assert rs'[i] in rs'; }
    }
    TraverseSame((m: MembershipRow) => MembershipDomain(ctx, rs, m), (m: MembershipRow) => MembershipDomain(ctx, rs', m), rows);
  }

  /** The invitation listing shows exactly the tenant's open invitations, and the same ones on any two
      databases that agree on the tenant. */
  lemma InvitationListingIsIsolated(db: Db, o: Order, db': Db, o': Order, t: Id, now: int,
      rows: seq<StoredInvitation>, rows': seq<StoredInvitation>)
    requires SameTenant(db, o, db', o', t) && Total(o.before)
    requires OpenAnswer(db, o, t, now, rows) && OpenAnswer(db', o', t, now, rows')
    ensures rows == rows'
    ensures forall i :: i in db.invitations ==>
              (StoredInvitation(i, EncodeInvitation(db.invitations[i])) in rows <==>
               db.invitations[i].tenantId == t && InvitationOpen(db.invitations[i], now))
  {
    hide AgreeEvents, AgreeRoles, AgreeMembers, RoleString, Total, Strict;
    OrdersAreStrict(o);
    forall r ensures r in rows <==> r in rows' {
      assert InvitationOf(db.invitations, t, r.id) <==> InvitationOf(db'.invitations, t, r.id);
      assert IsOpenRow(db, t, now, r) <==> IsOpenRow(db', t, now, r);
    }
    assert Sorted(rows', InvitationOrder(o));
    AnswersCoincide(rows, rows', InvitationOrder(o));
  }

  lemma EventsDetermined(db: Db, o: Order, db': Db, o': Order, t: Id, includeArchived: bool,
      all: seq<EventColumns>, all': seq<EventColumns>)
    requires SameTenant(db, o, db', o', t) && Total(o.before)
    requires AllEvents(db, o, t, includeArchived, all) && AllEvents(db', o', t, includeArchived, all')
    ensures all == all'
  {
    hide AgreeInvitations, AgreeRoles, AgreeMembers, StatusString, Total, Strict;
    OrdersAreStrict(o);
    forall r ensures r in all <==> r in all' {
      assert EventOf(db.events, t, r.id) <==> EventOf(db'.events, t, r.id);
      assert IsEventRow(db, t, includeArchived, r) <==> IsEventRow(db', t, includeArchived, r);
    }
    assert Sorted(all', EventOrder(o));
    AnswersCoincide(all, all', EventOrder(o));
  }

  /** The event listing likewise, cap included. */
  lemma EventListingIsIsolated(db: Db, o: Order, db': Db, o': Order, t: Id, includeArchived: bool,
      rows: seq<EventColumns>, rows': seq<EventColumns>)
    requires SameTenant(db, o, db', o', t) && Total(o.before)
    requires EventAnswer(db, o, t, includeArchived, rows) && EventAnswer(db', o', t, includeArchived, rows')
    ensures rows == rows' && |rows| <= MaxListEvents
    ensures forall r :: r in rows ==> IsEventRow(db, t, includeArchived, r)
  {
    hide SameTenant, Total, IsEventRow, Sorted;
    var all: seq<EventColumns> :| AllEvents(db, o, t, includeArchived, all) &&
                                  rows == if |all| <= MaxListEvents then all else all[..MaxListEvents];
    var all': seq<EventColumns> :| AllEvents(db', o', t, includeArchived, all') &&
                                   rows' == if |all'| <= MaxListEvents then all' else all'[..MaxListEvents];
    EventsDetermined(db, o, db', o', t, includeArchived, all, all');
    forall r | r in rows ensures IsEventRow(db, t, includeArchived, r) { assert r in all; }
  }

  // ---------------------------------------------------------------- the gates of the reads

  /** resolveTenant of the relation use cases: archived and pending tenants keep answering. */
  ghost function ResolveTenant(ctx: Ctx, p: Id, db: Db): Result<Id> {
    if p == "" then Err(TenantIDRequired)
    else if Ensure(ctx, p).Some? then Err(Ensure(ctx, p).value)
    else if TenantByPublicId(db, p).None? then Err(TenantNotFound)
    else Ok(TenantByPublicId(db, p).value)
  }

  /** resolveTenant of the tenant use cases. */
  ghost function ResolveOwnedTenant(ctx: Ctx, p: Id, db: Db): Result<Id> {
    var t := ResolveTenant(ctx, p, db);
    if t.Ok? && !OwnedTenant(db, t.value) then Err(TenantPendingOwner) else t
  }

  datatype Scope = Scope(tenant: Id, user: Option<Id>)

  /** ListMemberships: the tenant named, or the authenticated one for a user. */
  ghost function MembershipScope(ctx: Ctx, p: Id, user: Id, db: Db): Result<Scope> {
    if p != "" && user != "" then Err(FilterAmbiguous)
    else if p != "" then
      var t := ResolveTenant(ctx, p, db);
      if t.Err? then Err(t.error) else Ok(Scope(t.value, None))
    else if user != "" then
      if TenantOf(ctx).None? then Err(ContextMissing)
      else
        var t := ResolveTenant(ctx, TenantOf(ctx).value, db);
        if t.Err? then Err(t.error) else Ok(Scope(t.value, Some(user)))
    else Err(FilterRequired)
  }

  ghost function ReadChecks(ctx: Ctx, p: Id, db: Db): Option<Error> {
    if p == "" then Some(TenantIDRequired)
    else if TenantOf(ctx).None? then Some(ContextMissing)
    else if TenantOf(ctx) != Some(p) then Some(ContextMismatch)
    else if TenantByPublicId(db, p).None? then Some(TenantNotFound)
    else None
  }

  lemma ResolvesExactly(ctx: Ctx, p: Id, db: Db)
    ensures var t, e := TenantByPublicId(db, p), ReadChecks(ctx, p, db);
            (e.None? ==> t.Some?) && ResolveTenant(ctx, p, db) == if e.Some? then Err(e.value) else Ok(t.value)
  {
    hide SubjectOf, TenantOf, TenantByPublicId;
    Principal(ctx, "");
  }

  /** What a read is refused over, check by check, and the rows it is let through to: those of the tenant
      named, for a user those of the authenticated tenant; events only of an owned tenant. */
  lemma ReadGatesExactly(ctx: Ctx, p: Id, user: Id, db: Db)
    ensures var t, e := TenantByPublicId(db, p), ReadChecks(ctx, p, db);
            var owned := if e.Some? then e else if t.Some? && OwnedTenant(db, t.value) then None else Some(TenantPendingOwner);
            (owned.None? ==> t.Some?) && ResolveOwnedTenant(ctx, p, db) == if owned.Some? then Err(owned.value) else Ok(t.value)
    ensures var q := if p != "" then p else if TenantOf(ctx).Some? then TenantOf(ctx).value else "";
            var e := if p != "" && user != "" then Some(FilterAmbiguous)
                     else if p == "" && user == "" then Some(FilterRequired)
                     else if p == "" && TenantOf(ctx).None? then Some(ContextMissing)
                     else ReadChecks(ctx, q, db);
            (e.None? ==> TenantByPublicId(db, q).Some?) &&
            MembershipScope(ctx, p, user, db) ==
            if e.Some? then Err(e.value) else Ok(Scope(TenantByPublicId(db, q).value, if p != "" then None else Some(user)))
  {
    hide TenantOf, TenantByPublicId, ResolveTenant, ReadChecks;
    ResolvesExactly(ctx, p, db);
    if TenantOf(ctx).Some? { ResolvesExactly(ctx, TenantOf(ctx).value, db); }
  }

  /** Two databases that a caller cannot tell apart by its own tenant. */
  ghost predicate SameForCaller(ctx: Ctx, db: Db, o: Order, db': Db, o': Order) {
    TenantOf(ctx).Some? ==>
      var found := TenantByPublicId(db, TenantOf(ctx).value);
      found == TenantByPublicId(db', TenantOf(ctx).value) && (found.Some? ==> SameTenant(db, o, db', o', found.value))
  }

  /** A read gate lets a caller through to its own tenant only, and decides the same on both. */
  lemma ReadGatesAreIsolated(ctx: Ctx, db: Db, o: Order, db': Db, o': Order, p: Id, user: Id)
    requires SameForCaller(ctx, db, o, db', o')
    ensures MembershipScope(ctx, p, user, db) == MembershipScope(ctx, p, user, db')
    ensures ResolveOwnedTenant(ctx, p, db) == ResolveOwnedTenant(ctx, p, db')
    ensures MembershipScope(ctx, p, user, db).Ok? ==>
              var t := MembershipScope(ctx, p, user, db).value.tenant;
              t in db.tenants && TenantOf(ctx) == Some(db.tenants[t].publicId) && SameTenant(db, o, db', o', t)
    ensures ResolveOwnedTenant(ctx, p, db).Ok? ==>
              var t := ResolveOwnedTenant(ctx, p, db).value;
              t in db.tenants && TenantOf(ctx) == Some(db.tenants[t].publicId) && SameTenant(db, o, db', o', t)
  {
    hide DbOk, TenantOf, SameForCaller, SameTenant, ResolveTenant;
    ResolvesAlike(ctx, db, o, db', o', p);
    if TenantOf(ctx).Some? { ResolvesAlike(ctx, db, o, db', o', TenantOf(ctx).value); }
  }

  lemma ResolvesAlike(ctx: Ctx, db: Db, o: Order, db': Db, o': Order, p: Id)
    requires SameForCaller(ctx, db, o, db', o')
    ensures ResolveTenant(ctx, p, db) == ResolveTenant(ctx, p, db')
    ensures ResolveTenant(ctx, p, db).Ok? ==>
              var t := ResolveTenant(ctx, p, db).value;
              t in db.tenants && t in db'.tenants && TenantOf(ctx) == Some(db.tenants[t].publicId) && SameTenant(db, o, db', o', t) &&
              db.tenants[t] == db'.tenants[t]
  {
    hide TenantOf, AgreeEvents, AgreeMembers, AgreeRoles, AgreeInvitations;
  }

  // ---------------------------------------------------------------- the read use cases

  /** ListMemberships. For a user it is FindMembership: the first membership found, if any. */
  ghost predicate AnswersMemberships(ctx: Ctx, a: Reading, p: Id, user: Id, r: Result<seq<Membership>>) {
    var scope := MembershipScope(ctx, p, user, a.gate);
    if scope.Err? then r == Err(scope.error)
    else exists rows, rs :: MembershipsRead(a, scope.value, rows, rs) && r == FirstFor(scope.value, Listed(ctx, rows, rs))
  }

  ghost predicate MembershipsRead(a: Reading, s: Scope, rows: seq<MembershipRow>, rs: seq<EventRoleRow>) {
    MemberAnswer(a.rows, a.order, s.tenant, s.user, rows) && RoleAnswer(a.roles, a.order, s.tenant, s.user, rs)
  }

  function FirstFor(s: Scope, r: Result<seq<Membership>>): Result<seq<Membership>> {
    if s.user.Some? && r.Ok? && r.value != [] then Ok(r.value[..1]) else r
  }

  /** ListTenantInvitations. */
  ghost predicate AnswersInvitations(ctx: Ctx, a: Reading, p: Id, now: int, r: Result<seq<InvitationModel>>) {
    var t := ResolveTenant(ctx, p, a.gate);
    if t.Err? then r == Err(t.error)
    else exists rows :: OpenAnswer(a.rows, a.order, t.value, now, rows) &&
           r == Traverse((i: StoredInvitation) => InvitationDomain(i.columns), rows)
  }

  /** ListEvents. */
  ghost predicate AnswersEvents(ctx: Ctx, a: Reading, p: Id, includeArchived: bool, r: Result<seq<EventModel>>) {
    var t := ResolveOwnedTenant(ctx, p, a.gate);
    if t.Err? then r == Err(t.error)
    else exists rows :: EventAnswer(a.rows, a.order, t.value, includeArchived, rows) &&
           r == Traverse((e: EventColumns) => EventDomain(ctx, e), rows)
  }

  /** Two readings that a caller cannot tell apart by its own tenant. */
  ghost predicate SameReadingForCaller(ctx: Ctx, a: Reading, b: Reading) {
    SameForCaller(ctx, a.gate, a.order, b.gate, b.order) &&
    (TenantOf(ctx).Some? && TenantByPublicId(a.gate, TenantOf(ctx).value).Some? ==>
       SameReading(a, b, TenantByPublicId(a.gate, TenantOf(ctx).value).value))
  }

  lemma GatedScope(ctx: Ctx, a: Reading, b: Reading, p: Id, user: Id)
    requires SameReadingForCaller(ctx, a, b)
    ensures MembershipScope(ctx, p, user, a.gate) == MembershipScope(ctx, p, user, b.gate)
    ensures MembershipScope(ctx, p, user, a.gate).Ok? ==> SameReading(a, b, MembershipScope(ctx, p, user, a.gate).value.tenant)
    ensures ResolveTenant(ctx, p, a.gate) == ResolveTenant(ctx, p, b.gate)
    ensures ResolveTenant(ctx, p, a.gate).Ok? ==> SameReading(a, b, ResolveTenant(ctx, p, a.gate).value)
    ensures ResolveOwnedTenant(ctx, p, a.gate) == ResolveOwnedTenant(ctx, p, b.gate)
  {
    hide DbOk, TenantOf, SameForCaller, SameTenant, SameReading;
    ReadGatesAreIsolated(ctx, a.gate, a.order, b.gate, b.order, p, user);
    ResolvesAlike(ctx, a.gate, a.order, b.gate, b.order, p);
    if TenantOf(ctx).Some? { ResolvesAlike(ctx, a.gate, a.order, b.gate, b.order, TenantOf(ctx).value); }
  }

  /** ListMemberships, gate, queries and reconstruction together: whatever the tables hold of other
      tenants, and however the database breaks ties, a caller is given the same answer. */
  lemma MembershipsAreIsolated(ctx: Ctx, a: Reading, b: Reading, p: Id, user: Id, r: Result<seq<Membership>>, r': Result<seq<Membership>>)
    requires ReadingOk(a) && ReadingOk(b) && SameReadingForCaller(ctx, a, b)
    requires AnswersMemberships(ctx, a, p, user, r) && AnswersMemberships(ctx, b, p, user, r')
    ensures r == r'
  {
    hide ReadingOk, MembershipScope, SameReadingForCaller, SameReading, Listed, MemberAnswer, RoleAnswer;
    GatedScope(ctx, a, b, p, user);
    var scope := MembershipScope(ctx, p, user, a.gate);
    if scope.Ok? {
      var s := scope.value;
      var rows, rs :| MembershipsRead(a, s, rows, rs) && r == FirstFor(s, Listed(ctx, rows, rs));
      var rows', rs' :| MembershipsRead(b, s, rows', rs') && r' == FirstFor(s, Listed(ctx, rows', rs'));
      MembershipListingIsIsolated(ctx, a, b, s.tenant, s.user, rows, rs, rows', rs');
    }
  }

  /** ListTenantInvitations likewise. */
  lemma InvitationsAreIsolated(ctx: Ctx, a: Reading, b: Reading, p: Id, now: int, r: Result<seq<InvitationModel>>,
      r': Result<seq<InvitationModel>>)
    requires ReadingOk(a) && ReadingOk(b) && SameReadingForCaller(ctx, a, b)
    requires AnswersInvitations(ctx, a, p, now, r) && AnswersInvitations(ctx, b, p, now, r')
    ensures r == r'
  {
    hide DbOk, Total, ResolveTenant, SameReadingForCaller, SameTenant, Traverse, InvitationDomain, OpenAnswer;
    GatedScope(ctx, a, b, p, "");
    var t := ResolveTenant(ctx, p, a.gate);
    if t.Ok? {
      var rows :| OpenAnswer(a.rows, a.order, t.value, now, rows) &&
          r == Traverse((i: StoredInvitation) => InvitationDomain(i.columns), rows);
      var rows' :| OpenAnswer(b.rows, b.order, t.value, now, rows') &&
          r' == Traverse((i: StoredInvitation) => InvitationDomain(i.columns), rows');
      InvitationListingIsIsolated(a.rows, a.order, b.rows, b.order, t.value, now, rows, rows');
    }
  }

  /** ListEvents likewise, cap included. */
  lemma EventsAreIsolated(ctx: Ctx, a: Reading, b: Reading, p: Id, includeArchived: bool, r: Result<seq<EventModel>>,
      r': Result<seq<EventModel>>)
    requires ReadingOk(a) && ReadingOk(b) && SameReadingForCaller(ctx, a, b)
    requires AnswersEvents(ctx, a, p, includeArchived, r) && AnswersEvents(ctx, b, p, includeArchived, r')
    ensures r == r'
  {
    hide DbOk, Total, ResolveTenant, SameReadingForCaller, SameTenant, Traverse, EventDomain, EventAnswer;
    GatedScope(ctx, a, b, p, "");
    var t := ResolveOwnedTenant(ctx, p, a.gate);
    if t.Ok? {
      var rows :| EventAnswer(a.rows, a.order, t.value, includeArchived, rows) &&
          r == Traverse((e: EventColumns) => EventDomain(ctx, e), rows);
      var rows' :| EventAnswer(b.rows, b.order, t.value, includeArchived, rows') &&
          r' == Traverse((e: EventColumns) => EventDomain(ctx, e), rows');
      EventListingIsIsolated(a.rows, a.order, b.rows, b.order, t.value, includeArchived, rows, rows');
    }
  }

  // ---------------------------------------------------------------- what a caller is shown

  ghost predicate ShowsRole(a: Reading, t: Id, u: Id, v: EventRoleView) {
    var k := RoleKey(v.eventId, u);
    RoleOf(a.roles.eventRoles, t, k) && v.eventId in a.roles.events && v.eventPublicId == a.roles.events[v.eventId].publicId &&
    v.role == a.roles.eventRoles[k].role
  }

  predicate InEventOrder(o: Order, vs: seq<EventRoleView>) {
    forall i, j :: 0 <= i < j < |vs| ==> o.before(vs[i].eventId, vs[j].eventId)
  }

  ghost predicate ShowsMembership(a: Reading, t: Id, m: Membership) {
    var k := MemberKey(t, m.userId);
    k in a.rows.members && t in a.rows.tenants && m.tenantId == t && m.tenantPublicId == a.rows.tenants[t].publicId &&
    m.role == a.rows.members[k].role && m.name == a.rows.members[k].name && m.joinedAt == a.order.joined(k) &&
    (forall v :: v in m.eventRoles <==> ShowsRole(a, t, m.userId, v)) && InEventOrder(a.order, m.eventRoles)
  }

  /** Shown in the order of joining, ties by user. */
  predicate JoinedBefore(o: Order, t: Id, u: Id, v: Id) {
    var at, at' := o.joined(MemberKey(t, u)), o.joined(MemberKey(t, v));
    at < at' || (at == at' && o.before(u, v))
  }

  lemma RoleRowShown(a: Reading, t: Id, user: Option<Id>, row: EventRoleRow)
    requires IsRoleRow(a.roles, t, user, row)
    ensures RoleParses(row) && ShowsRole(a, t, row.userId, ViewOf(row))
  {
    NamesAreDistinct(a.roles.eventRoles[RoleKey(row.eventId, row.userId)].role, Owned, Open);
  }

  lemma RolesAreShown(a: Reading, t: Id, user: Option<Id>, rs: seq<EventRoleRow>, u: Id, v: EventRoleView)
    requires DbOk(a.roles) && RoleAnswer(a.roles, a.order, t, user, rs) && WantedUser(user, u)
    ensures v in RolesOf(Key(t, u), rs) <==> ShowsRole(a, t, u, v)
  {
    hide DbOk, RoleNamed, RoleString, RolesOf;
    RolesOfExactly(Key(t, u), rs, v);
    if v in RolesOf(Key(t, u), rs) {
      var i :| 0 <= i < |rs| && RoleKeyOf(rs[i]) == Key(t, u) && RoleParses(rs[i]) && ViewOf(rs[i]) == v;
      assert rs[i] in rs;
      RoleRowShown(a, t, user, rs[i]);
    }
    if ShowsRole(a, t, u, v) {
      var k := RoleKey(v.eventId, u);
      RoleHome(a.roles, k);
      var row := EventRoleRow(t, u, v.eventId, v.eventPublicId, RoleString(a.roles.eventRoles[k].role));
      assert IsRoleRow(a.roles, t, user, row);
      var i :| 0 <= i < |rs| && rs[i] == row;
      RoleRowShown(a, t, user, row);
      assert RoleParses(rs[i]) && ViewOf(rs[i]) == v by { NamesAreDistinct(v.role, Owned, Open); }
    }
  }

  lemma MemberRowShown(ctx: Ctx, a: Reading, t: Id, user: Option<Id>, rs: seq<EventRoleRow>, row: MembershipRow)
    requires ReadingOk(a) && IsMemberRow(a.rows, a.order, t, user, row) && RoleAnswer(a.roles, a.order, t, user, rs)
    requires TenantOf(ctx) == Some(a.rows.tenants[t].publicId)
    ensures MembershipDomain(ctx, rs, row).Ok?
    ensures var m := MembershipDomain(ctx, rs, row).value; ShowsMembership(a, t, m) && m.userId == row.userId && WantedUser(user, m.userId)
  {
    hide DbOk, RoleAnswer, RoleNamed, RoleString, ParseDisplayName, RolesOf, ShowsRole, Total, TenantOf, InEventOrder;
    MemberHome(a.rows, MemberKey(t, row.userId));
    MemberRowRoundTrip(a.rows.members[MemberKey(t, row.userId)]);
    BoundaryChecks(ctx, row.tenantPublicId, "", None);
    forall v ensures v in RolesOf(Key(t, row.userId), rs) <==> ShowsRole(a, t, row.userId, v) {
      RolesAreShown(a, t, user, rs, row.userId, v);
    }
    RolesInOrder(a, t, user, rs, Key(t, row.userId));
    assert MembershipDomain(ctx, rs, row).value.eventRoles == RolesOf(Key(t, row.userId), rs);
  }

  lemma RolesInOrder(a: Reading, t: Id, user: Option<Id>, rs: seq<EventRoleRow>, k: Key)
    requires Total(a.order.before) && RoleAnswer(a.roles, a.order, t, user, rs)
    ensures InEventOrder(a.order, RolesOf(k, rs))
  {
    hide RoleAnswer, RolesOf, OrderedFor, Total, RoleNamed;
    RoleRowsOrdered(a.roles, a.order, t, user, rs, k);
    RolesComeInOrder(k, rs, a.order.before);
  }

  lemma NothingListed(ctx: Ctx, rs: seq<EventRoleRow>)
    ensures Listed(ctx, [], rs) == Ok([])
  {
  }

  lemma RowsAreShown(ctx: Ctx, a: Reading, s: Scope, rows: seq<MembershipRow>, rs: seq<EventRoleRow>)
    requires ReadingOk(a) && MembershipsRead(a, s, rows, rs)
    requires s.tenant in a.rows.tenants ==> TenantOf(ctx) == Some(a.rows.tenants[s.tenant].publicId)
    ensures Listed(ctx, rows, rs).Ok?
    ensures var ms := Listed(ctx, rows, rs).value;
            |ms| == |rows| && forall i :: 0 <= i < |ms| ==>
                                ms[i].userId == rows[i].userId && WantedUser(s.user, ms[i].userId) && ShowsMembership(a, s.tenant, ms[i])
    ensures forall i, j :: 0 <= i < j < |rows| ==> JoinedBefore(a.order, s.tenant, rows[i].userId, rows[j].userId)
  {
    hide DbOk, RoleNamed, RoleString, ParseDisplayName, RolesOf, Total, TenantOf, ShowsMembership, MembershipDomain, Listed;
    RowsInOrder(a, s, rows, rs);
    if rows == [] {
      NothingListed(ctx, rs);
    } else {
      forall i | 0 <= i < |rs| ensures RoleParses(rs[i]) {
        assert rs[i] in rs;
        RoleRowShown(a, s.tenant, s.user, rs[i]);
      }
      forall i | 0 <= i < |rows| ensures MembershipDomain(ctx, rs, rows[i]).Ok? && IsMemberRow(a.rows, a.order, s.tenant, s.user, rows[i]) {
        assert rows[i] in rows;
        MemberRowShown(ctx, a, s.tenant, s.user, rs, rows[i]);
      }
      ListedMeaning(ctx, rows, rs);
      forall i | 0 <= i < |rows| { MemberRowShown(ctx, a, s.tenant, s.user, rs, rows[i]); }
    }
  }

  lemma RowsInOrder(a: Reading, s: Scope, rows: seq<MembershipRow>, rs: seq<EventRoleRow>)
    requires MembershipsRead(a, s, rows, rs)
    ensures forall i, j :: 0 <= i < j < |rows| ==> JoinedBefore(a.order, s.tenant, rows[i].userId, rows[j].userId)
  {
    hide RoleAnswer, RoleString;
    forall i, j | 0 <= i < j < |rows| ensures JoinedBefore(a.order, s.tenant, rows[i].userId, rows[j].userId) {
      assert rows[i] in rows && rows[j] in rows;
      assert MemberOrder(a.order)(rows[i], rows[j]);
    }
  }

  /** ListMemberships never fails on what the tables hold, the check against foreign rows included: it
      shows each of the tenant's memberships once, in the order of joining, of the one user if a user is asked
      for, as stored, with exactly its own event roles in the order of the events. */
  lemma MembershipsAreShown(ctx: Ctx, a: Reading, p: Id, user: Id, r: Result<seq<Membership>>)
    requires ReadingOk(a) && MembershipScope(ctx, p, user, a.gate).Ok? && AnswersMemberships(ctx, a, p, user, r)
    requires var t := MembershipScope(ctx, p, user, a.gate).value.tenant;
             t in a.rows.tenants ==> TenantOf(ctx) == Some(a.rows.tenants[t].publicId)
    ensures r.Ok?
    ensures var s := MembershipScope(ctx, p, user, a.gate).value;
            (forall m :: m in r.value ==> WantedUser(s.user, m.userId) && ShowsMembership(a, s.tenant, m)) &&
            (forall u :: WantedUser(s.user, u) && MemberKey(s.tenant, u) in a.rows.members ==> exists m :: m in r.value && m.userId == u) &&
            (forall i, j :: 0 <= i < j < |r.value| ==> r.value[i].userId != r.value[j].userId) &&
            (forall i, j :: 0 <= i < j < |r.value| ==> JoinedBefore(a.order, s.tenant, r.value[i].userId, r.value[j].userId))
  {
    hide ReadingOk, MembershipScope, TenantOf, ShowsMembership, Listed, MembershipsRead;
    var s := MembershipScope(ctx, p, user, a.gate).value;
    var rows, rs :| MembershipsRead(a, s, rows, rs) && r == FirstFor(s, Listed(ctx, rows, rs));
    RowsAreShown(ctx, a, s, rows, rs);
    RowsAreApart(a, s, rows, rs);
    var ms := Listed(ctx, rows, rs).value;
    forall u | WantedUser(s.user, u) && MemberKey(s.tenant, u) in a.rows.members ensures exists m :: m in r.value && m.userId == u {
      var i := RowOfMember(a, s, rows, rs, u);
      assert ms[i].userId == u && ms[i] in ms;
      if s.user.Some? { assert ms[0].userId == ms[i].userId && ms[0] in ms[..1]; }
    }
  }

  lemma RowsAreApart(a: Reading, s: Scope, rows: seq<MembershipRow>, rs: seq<EventRoleRow>)
    requires ReadingOk(a) && MembershipsRead(a, s, rows, rs)
    ensures forall i, j :: 0 <= i < j < |rows| ==> rows[i].userId != rows[j].userId
  {
    hide DbOk, RoleAnswer, RoleString;
    forall i, j | 0 <= i < j < |rows| ensures rows[i].userId != rows[j].userId {
      assert rows[i] in rows && rows[j] in rows;
    }
  }

  lemma RowOfMember(a: Reading, s: Scope, rows: seq<MembershipRow>, rs: seq<EventRoleRow>, u: Id) returns (i: nat)
    requires ReadingOk(a) && MembershipsRead(a, s, rows, rs) && WantedUser(s.user, u) && MemberKey(s.tenant, u) in a.rows.members
    ensures i < |rows| && rows[i].userId == u
  {
    hide DbOk, RoleAnswer, RoleString, Total, Sorted;
    var k := MemberKey(s.tenant, u);
    MemberHome(a.rows, k);
    var row := MembershipRow(s.tenant, a.rows.tenants[s.tenant].publicId, u, RoleString(a.rows.members[k].role), a.rows.members[k].name,
                             a.order.joined(k));
    assert IsMemberRow(a.rows, a.order, s.tenant, s.user, row);
    i :| 0 <= i < |rows| && rows[i] == row;
  }

  ghost function InvitationShown(i: Invitation): InvitationModel {
    InvitationModel(i.publicId, i.tenantId, i.role, i.name, i.expiresAt, InvitationPending)
  }

  /** These are the invitations shown: one for each of the ids, which come in the order of creation. */
  ghost predicate ShownInOrder(a: Reading, t: Id, now: int, ids: seq<Id>, ms: seq<InvitationModel>) {
    |ids| == |ms| &&
    (forall k :: 0 <= k < |ids| ==> OpenIn(a.rows, t, now, ids[k]) && ms[k] == InvitationShown(a.rows.invitations[ids[k]])) &&
    (forall i, j :: 0 <= i < j < |ids| ==>
       a.order.created(ids[i]) < a.order.created(ids[j]) ||
       (a.order.created(ids[i]) == a.order.created(ids[j]) && a.order.before(ids[i], ids[j])))
  }

  /** ListTenantInvitations shows the open invitations of the tenant, as stored and in the order of creation,
      and nothing else. */
  lemma InvitationsAreShown(ctx: Ctx, a: Reading, p: Id, now: int, r: Result<seq<InvitationModel>>)
    requires ReadingOk(a) && ResolveTenant(ctx, p, a.gate).Ok? && AnswersInvitations(ctx, a, p, now, r)
    ensures r.Ok?
    ensures var t := ResolveTenant(ctx, p, a.gate).value;
            (exists ids :: ShownInOrder(a, t, now, ids, r.value)) &&
            forall m :: m in r.value <==> exists i :: i in a.rows.invitations && a.rows.invitations[i].tenantId == t &&
                                                      InvitationOpen(a.rows.invitations[i], now) &&
                                                      m == InvitationShown(a.rows.invitations[i])
  {
    hide DbOk, Total, ResolveTenant, InvitationDomain, Sorted, EncodeInvitation, Traverse;
    var t := ResolveTenant(ctx, p, a.gate).value;
    var f := (i: StoredInvitation) => InvitationDomain(i.columns);
    var rows: seq<StoredInvitation> :| OpenAnswer(a.rows, a.order, t, now, rows) && r == Traverse(f, rows);
    TraverseMeaning(f, rows);
    forall k | 0 <= k < |rows|
      ensures OpenIn(a.rows, t, now, rows[k].id) && f(rows[k]) == Ok(InvitationShown(a.rows.invitations[rows[k].id]))
    {
      assert rows[k] in rows;
      OpenRowShown(a.rows, t, now, rows[k]);
    }
    var ids := seq(|rows|, k requires 0 <= k < |rows| => rows[k].id);
    forall i, j | 0 <= i < j < |ids|
      ensures a.order.created(ids[i]) < a.order.created(ids[j]) ||
              (a.order.created(ids[i]) == a.order.created(ids[j]) && a.order.before(ids[i], ids[j]))
    {
      OpenRowsInOrder(a.rows, a.order, t, now, rows, i, j);
    }
    assert ShownInOrder(a, t, now, ids, r.value);
    forall i | OpenIn(a.rows, t, now, i) ensures InvitationShown(a.rows.invitations[i]) in r.value {
      OpenRowExists(a.rows, t, now, i);
      var k :| 0 <= k < |rows| && rows[k] == StoredInvitation(i, EncodeInvitation(a.rows.invitations[i]));
      assert r.value[k] == InvitationShown(a.rows.invitations[i]);
    }
  }

  ghost predicate OpenIn(db: Db, t: Id, now: int, i: Id) {
    i in db.invitations && db.invitations[i].tenantId == t && InvitationOpen(db.invitations[i], now)
  }

  lemma OpenRowsInOrder(db: Db, o: Order, t: Id, now: int, rows: seq<StoredInvitation>, i: nat, j: nat)
    requires OpenAnswer(db, o, t, now, rows) && i < j < |rows|
    ensures o.created(rows[i].id) < o.created(rows[j].id) ||
            (o.created(rows[i].id) == o.created(rows[j].id) && o.before(rows[i].id, rows[j].id))
  {
    hide IsOpenRow;
    assert InvitationOrder(o)(rows[i], rows[j]);
  }

  lemma OpenRowShown(db: Db, t: Id, now: int, row: StoredInvitation)
    requires DbOk(db) && IsOpenRow(db, t, now, row)
    ensures OpenIn(db, t, now, row.id) && InvitationDomain(row.columns) == Ok(InvitationShown(db.invitations[row.id]))
  {
    hide DbOk, RoleString, RoleNamed, ParseDisplayName, InvitationDomain;
    InvitationHome(db, row.id);
    InvitationRowRoundTrip(db.invitations[row.id]);
  }

  lemma OpenRowExists(db: Db, t: Id, now: int, i: Id)
    requires OpenIn(db, t, now, i)
    ensures IsOpenRow(db, t, now, StoredInvitation(i, EncodeInvitation(db.invitations[i])))
  {
  }

  /** An event that the listing may show. */
  predicate Listable(db: Db, t: Id, includeArchived: bool, e: Id) {
    EventOf(db.events, t, e) && (includeArchived || db.events[e].status != Archived)
  }

  /** ListEvents shows events of the tenant, as stored and in creation order, archived ones only when
      asked; it stops at the cap, and leaves out only events that come after every one it shows. */
  lemma EventsAreShown(ctx: Ctx, a: Reading, p: Id, includeArchived: bool, r: Result<seq<EventModel>>)
    requires ReadingOk(a) && ResolveOwnedTenant(ctx, p, a.gate).Ok? && AnswersEvents(ctx, a, p, includeArchived, r)
    requires var t := ResolveOwnedTenant(ctx, p, a.gate).value;
             t in a.rows.tenants ==> TenantOf(ctx) == Some(a.rows.tenants[t].publicId)
    ensures r.Ok? && |r.value| <= 1000
    ensures forall i, j :: 0 <= i < j < |r.value| ==> a.order.before(r.value[i].id, r.value[j].id)
    ensures var t := ResolveOwnedTenant(ctx, p, a.gate).value;
            (forall m :: m in r.value ==> Listable(a.rows, t, includeArchived, m.id) && m.event == a.rows.events[m.id]) &&
            (forall e :: Listable(a.rows, t, includeArchived, e) ==>
                           EventModel(e, a.rows.events[e]) in r.value ||
                           (|r.value| == 1000 && forall m :: m in r.value ==> a.order.before(m.id, e)))
  {
    hide DbOk, Total, ResolveTenant, TenantOf, EventDomain, Traverse, IsEventRow, Sorted, AllEvents;
    var t := ResolveOwnedTenant(ctx, p, a.gate).value;
    var f := (e: EventColumns) => EventDomain(ctx, e);
    var rows: seq<EventColumns> :| EventAnswer(a.rows, a.order, t, includeArchived, rows) && r == Traverse(f, rows);
    var all: seq<EventColumns> :| AllEvents(a.rows, a.order, t, includeArchived, all) &&
                                  rows == if |all| <= MaxListEvents then all else all[..MaxListEvents];
    TraverseMeaning(f, rows);
    forall k | 0 <= k < |rows|
      ensures Listable(a.rows, t, includeArchived, rows[k].id) && f(rows[k]) == Ok(EventModel(rows[k].id, a.rows.events[rows[k].id]))
    {
      assert rows[k] == all[k];
      RowOfAll(a.rows, a.order, t, includeArchived, all, k);
      EventRowShown(ctx, a.rows, t, includeArchived, rows[k]);
    }
    forall i, j | 0 <= i < j < |all| ensures a.order.before(all[i].id, all[j].id) {
      EventRowsInOrder(a.rows, a.order, t, includeArchived, all, i, j);
    }
    forall e | Listable(a.rows, t, includeArchived, e)
      ensures EventModel(e, a.rows.events[e]) in r.value ||
              (|r.value| == MaxListEvents && forall m :: m in r.value ==> a.order.before(m.id, e))
    {
      var k := PlaceOf(a.rows, a.order, t, includeArchived, all, e);
      if k < |rows| { assert r.value[k] == EventModel(e, a.rows.events[e]); }
    }
  }

  lemma EventRowsInOrder(db: Db, o: Order, t: Id, includeArchived: bool, all: seq<EventColumns>, i: nat, j: nat)
    requires AllEvents(db, o, t, includeArchived, all) && i < j < |all|
    ensures o.before(all[i].id, all[j].id)
  {
  }

  lemma RowOfAll(db: Db, o: Order, t: Id, includeArchived: bool, all: seq<EventColumns>, k: nat)
    requires AllEvents(db, o, t, includeArchived, all) && k < |all|
    ensures IsEventRow(db, t, includeArchived, all[k])
  {
    assert all[k] in all;
  }

  lemma EventRowShown(ctx: Ctx, db: Db, t: Id, includeArchived: bool, row: EventColumns)
    requires DbOk(db) && IsEventRow(db, t, includeArchived, row)
    requires t in db.tenants ==> TenantOf(ctx) == Some(db.tenants[t].publicId)
    ensures Listable(db, t, includeArchived, row.id) && EventDomain(ctx, row) == Ok(EventModel(row.id, db.events[row.id]))
  {
    hide DbOk, TenantOf;
    EventHome(db, row.id);
    NamesAreDistinct(RoleOwner, Owned, db.events[row.id].status);
    BoundaryChecks(ctx, row.tenantPublicId, "", None);
  }

  lemma PlaceOf(db: Db, o: Order, t: Id, includeArchived: bool, all: seq<EventColumns>, e: Id) returns (k: nat)
    requires AllEvents(db, o, t, includeArchived, all) && Listable(db, t, includeArchived, e)
    ensures k < |all| && all[k].id == e
  {
    hide Sorted;
    var event := db.events[e];
    var row := EventColumns(e, event.publicId, event.tenantId, event.tenantPublicId, event.name, StatusString(event.status));
    NamesAreDistinct(RoleOwner, Owned, event.status);
    assert IsEventRow(db, t, includeArchived, row);
    k :| 0 <= k < |all| && all[k] == row;
  }
}

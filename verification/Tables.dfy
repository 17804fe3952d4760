/** The database: its five tables, the constraints every committed state meets, and the
    one-at-a-time meaning of every transaction. */
module Tables {
  import opened Domain
  import opened Subdomains

  datatype MemberKey = MemberKey(tenant: Id, user: Id)
  datatype RoleKey = RoleKey(event: Id, user: Id)

  datatype Db = Db(tenants: map<Id, Tenant>, events: map<Id, Event>, members: map<MemberKey, Member>,
                   eventRoles: map<RoleKey, EventRole>, invitations: map<Id, Invitation>)

  const EmptyDb := Db(map[], map[], map[], map[], map[])

  // ---------------------------------------------------------------- lookups

  ghost function TenantByPublicId(db: Db, p: Id): (r: Option<Id>)
    ensures r.Some? ==> r.value in db.tenants && db.tenants[r.value].publicId == p
    ensures r.None? ==> forall id :: id in db.tenants ==> db.tenants[id].publicId != p
  {
    if id :| id in db.tenants && db.tenants[id].publicId == p then Some(id) else None
  }

  ghost function EventByPublicId(db: Db, p: Id): (r: Option<Id>)
    ensures r.Some? ==> r.value in db.events && db.events[r.value].publicId == p
    ensures r.None? ==> forall id :: id in db.events ==> db.events[id].publicId != p
  {
    if id :| id in db.events && db.events[id].publicId == p then Some(id) else None
  }

  ghost function InvitationByPublicId(db: Db, t: Id, p: Id): (r: Option<Id>)
    ensures r.Some? ==> r.value in db.invitations && db.invitations[r.value].tenantId == t && db.invitations[r.value].publicId == p
    ensures r.None? ==> forall id :: id in db.invitations ==> !(db.invitations[id].tenantId == t && db.invitations[id].publicId == p)
  {
    if id :| id in db.invitations && db.invitations[id].tenantId == t && db.invitations[id].publicId == p then Some(id) else None
  }

  ghost function InvitationByToken(db: Db, t: Id, h: Hash): (r: Option<Id>)
    ensures r.Some? ==> r.value in db.invitations && db.invitations[r.value].tenantId == t && db.invitations[r.value].tokenHash == h
    ensures r.None? ==> forall id :: id in db.invitations ==> !(db.invitations[id].tenantId == t && db.invitations[id].tokenHash == h)
  {
    if id :| id in db.invitations && db.invitations[id].tenantId == t && db.invitations[id].tokenHash == h then Some(id) else None
  }

  ghost predicate SubdomainTaken(db: Db, s: string) {
    exists id :: id in db.tenants && db.tenants[id].subdomain == Some(s)
  }

  ghost predicate EventPublicIdTaken(db: Db, p: Id) {
    exists id :: id in db.events && db.events[id].publicId == p
  }

  ghost predicate InvitationPublicIdTaken(db: Db, p: Id) {
    exists id :: id in db.invitations && db.invitations[id].publicId == p
  }

  ghost predicate TokenTaken(db: Db, h: Hash) {
    exists id :: id in db.invitations && db.invitations[id].tokenHash == h
  }

  predicate OwnedIn(ts: map<Id, Tenant>, t: Id) { t in ts && ts[t].ownership == Owned }

  predicate OwnedTenant(db: Db, t: Id) { OwnedIn(db.tenants, t) }

  predicate OwnerIn(ms: map<MemberKey, Member>, t: Id, u: Id) {
    MemberKey(t, u) in ms && ms[MemberKey(t, u)].role == RoleOwner
  }

  predicate IsOwner(db: Db, t: Id, u: Id) { OwnerIn(db.members, t, u) }

  /** CountTenantOwners counts this set. */
  function Owners(db: Db, t: Id): set<Id> {
    set k | k in db.members && k.tenant == t && db.members[k].role == RoleOwner :: k.user
  }

  ghost predicate HasOwner(ms: map<MemberKey, Member>, t: Id) { exists u :: OwnerIn(ms, t, u) }

  ghost predicate HasOtherOwner(ms: map<MemberKey, Member>, t: Id, u: Id) { exists v :: v != u && OwnerIn(ms, t, v) }

  // ---------------------------------------------------------------- constraints

  /** tenants_ownership_state_check, tenants_ownership_claim_check and tenants_subdomain_check,
      the stored subdomain parses, and only an owned tenant is archived. */
  predicate TenantRowOk(t: Tenant) {
    match t.ownership
    case PendingOwner => t.tokenHash.Some? && t.expiresAt.Some? && t.subdomain.None? && !t.archived
    case Owned => t.tokenHash.None? && t.expiresAt.None? && t.subdomain.Some? && ValidSubdomain(t.subdomain.value)
    case OwnershipUnspecified => false
  }

  predicate MemberRowOk(m: Member) { StoredRole(m.role) && ValidName(m.name) }

  predicate InvitationRowOk(i: Invitation) {
    i.role == RoleStaff && ValidName(i.name) && (i.accepted.None? || i.revoked.None?)
  }

  // CHECK constraints, table by table.
  ghost predicate TenantRows(ts: map<Id, Tenant>) { forall id :: id in ts ==> TenantRowOk(ts[id]) }
  ghost predicate EventRows(es: map<Id, Event>) { forall id :: id in es ==> es[id].status != StatusUnspecified }
  ghost predicate MemberRows(ms: map<MemberKey, Member>) { forall k :: k in ms ==> MemberRowOk(ms[k]) }
  ghost predicate RoleRows(rs: map<RoleKey, EventRole>) { forall k :: k in rs ==> StoredRole(rs[k].role) }
  ghost predicate InvitationRows(ns: map<Id, Invitation>) { forall id :: id in ns ==> InvitationRowOk(ns[id]) }

  // UNIQUE constraints that the primary keys do not already give.
  ghost predicate UniqueTenants(ts: map<Id, Tenant>) {
    (forall a, b :: a in ts && b in ts && ts[a].publicId == ts[b].publicId ==> a == b) &&
    (forall a, b :: a in ts && b in ts && ts[a].subdomain.Some? && ts[a].subdomain == ts[b].subdomain ==> a == b)
  }
  ghost predicate UniqueEvents(es: map<Id, Event>) {
    forall a, b :: a in es && b in es && es[a].publicId == es[b].publicId ==> a == b
  }
  ghost predicate UniqueInvitations(ns: map<Id, Invitation>) {
    (forall a, b :: a in ns && b in ns && ns[a].publicId == ns[b].publicId ==> a == b) &&
    (forall a, b :: a in ns && b in ns && ns[a].tokenHash == ns[b].tokenHash ==> a == b)
  }

  // Foreign keys, strengthened: everything below a tenant belongs to an owned tenant, and an
  // event stores its own tenant's public ID.
  ghost predicate EventRefs(ts: map<Id, Tenant>, es: map<Id, Event>) {
    forall id :: id in es ==> OwnedIn(ts, es[id].tenantId) && ts[es[id].tenantId].publicId == es[id].tenantPublicId
  }
  ghost predicate MemberRefs(ts: map<Id, Tenant>, ms: map<MemberKey, Member>) {
    forall k :: k in ms ==> OwnedIn(ts, k.tenant)
  }
  predicate RoleRef(es: map<Id, Event>, ms: map<MemberKey, Member>, k: RoleKey, r: EventRole) {
    k.event in es && es[k.event].tenantId == r.tenantId && MemberKey(r.tenantId, k.user) in ms
  }
  ghost predicate RoleRefs(es: map<Id, Event>, ms: map<MemberKey, Member>, rs: map<RoleKey, EventRole>) {
    forall k :: k in rs ==> RoleRef(es, ms, k, rs[k])
  }
  ghost predicate InvitationRefs(ts: map<Id, Tenant>, ns: map<Id, Invitation>) {
    forall id :: id in ns ==> OwnedIn(ts, ns[id].tenantId)
  }

  /** An owned tenant has an owner. */
  ghost predicate OwnersOk(ts: map<Id, Tenant>, ms: map<MemberKey, Member>) {
    forall t :: OwnedIn(ts, t) ==> HasOwner(ms, t)
  }

  ghost predicate RowsOk(db: Db) {
    TenantRows(db.tenants) && EventRows(db.events) && MemberRows(db.members) && RoleRows(db.eventRoles) && InvitationRows(db.invitations)
  }

  ghost predicate UniqueOk(db: Db) {
    UniqueTenants(db.tenants) && UniqueEvents(db.events) && UniqueInvitations(db.invitations)
  }

  ghost predicate RefsOk(db: Db) {
    EventRefs(db.tenants, db.events) && MemberRefs(db.tenants, db.members) &&
    RoleRefs(db.events, db.members, db.eventRoles) && InvitationRefs(db.tenants, db.invitations)
  }

  /** Every constraint of the schema, and the rules the use cases keep beyond it. */
  ghost predicate DbOk(db: Db) { RowsOk(db) && UniqueOk(db) && RefsOk(db) && OwnersOk(db.tenants, db.members) }

  // ---------------------------------------------------------------- transactions

  /** A use case past its gates: what its transaction does, with everything the gates resolved. */
  datatype Txn =
    | ChangeRole(tenant: Id, caller: Option<Id>, user: Id, role: Role)
    | RevokeMember(tenant: Id, caller: Option<Id>, user: Id)
    | GrantRole(tenant: Id, caller: Option<Id>, event: Id, user: Id, role: Role)
    | RevokeEventRole(tenant: Id, caller: Option<Id>, event: Id, user: Id)
    | Invite(tenant: Id, caller: Option<Id>, id: Id, row: Invitation)
    | AcceptInvite(tenant: Id, seenOwned: bool, seenArchived: bool, subject: Id, token: Hash)
    | RevokeInvite(tenant: Id, publicId: Id)
    | AddMember(tenant: Id, user: Id, role: Role, name: string)
    | ClaimTenant(publicId: Id, boundTenant: Option<Id>, token: Hash, subdomain: string, subject: Id, name: string)
    | ChangePlan(publicId: Id, caller: Option<Id>, plan: string)
    | ArchiveTenant(publicId: Id, caller: Option<Id>)
    | NewEvent(tenant: Id, subject: Id, id: Id, draft: Event)
    | SetStatus(event: Id, name: string, status: EventStatus)

  /** What a transaction observed outside the rows it locked: the clock, and whether its own
      statement still read the tenant as not archived. */
  datatype Obs = Obs(now: int, open: bool)

  datatype Outcome = Committed(db: Db) | Refused(error: Error)

  predicate MayWrite(db: Db, t: Id, caller: Option<Id>) {
    caller.Some? && MemberKey(t, caller.value) in db.members &&
    Grants(db.members[MemberKey(t, caller.value)].role, ScopeTenantWrite)
  }

  /** Authorizer.Require for tenant.write. */
  function Require(db: Db, t: Id, caller: Option<Id>): Option<Error> {
    if caller.None? then Some(SubjectMissing)
    else if MayWrite(db, t, caller) then None
    else Some(PermissionDenied)
  }

  /** keepAnotherOwner. */
  function KeepAnotherOwner(db: Db, t: Id, u: Id): Option<Error> {
    if !IsOwner(db, t, u) then None
    else if |Owners(db, t)| <= 1 then Some(LastOwner)
    else None
  }

  /** RevokeTenantMembership with the cascade to the event roles held in the tenant. */
  function WithoutMember(db: Db, t: Id, u: Id): Db {
    db.(members := db.members - {MemberKey(t, u)},
        eventRoles := map k | k in db.eventRoles && !(k.user == u && db.eventRoles[k].tenantId == t) :: db.eventRoles[k])
  }

  ghost function ExecChangeRole(db: Db, t: Id, caller: Option<Id>, u: Id, role: Role): Outcome {
    var k := MemberKey(t, u);
    if Require(db, t, caller).Some? then Refused(Require(db, t, caller).value)
    else if role != RoleOwner && KeepAnotherOwner(db, t, u).Some? then Refused(KeepAnotherOwner(db, t, u).value)
    else if k !in db.members then Refused(MembershipNotFound)
    else Committed(db.(members := db.members[k := db.members[k].(role := role)]))
  }

  ghost function ExecRevokeMember(db: Db, t: Id, caller: Option<Id>, u: Id): Outcome {
    if Require(db, t, caller).Some? then Refused(Require(db, t, caller).value)
    else if KeepAnotherOwner(db, t, u).Some? then Refused(KeepAnotherOwner(db, t, u).value)
    else if MemberKey(t, u) !in db.members then Refused(MembershipNotFound)
    else Committed(WithoutMember(db, t, u))
  }

  ghost function ExecGrantRole(db: Db, t: Id, caller: Option<Id>, e: Id, u: Id, role: Role): Outcome {
    var k := RoleKey(e, u);
    if Require(db, t, caller).Some? then Refused(Require(db, t, caller).value)
    else if e !in db.events then Refused(EventNotFound)
    else if k !in db.eventRoles && MemberKey(db.events[e].tenantId, u) !in db.members then Refused(TenantMembershipRequired)
    else Committed(db.(eventRoles := db.eventRoles[k := EventRole(db.events[e].tenantId, role)]))
  }

  ghost function ExecRevokeEventRole(db: Db, t: Id, caller: Option<Id>, e: Id, u: Id): Outcome {
    if Require(db, t, caller).Some? then Refused(Require(db, t, caller).value)
    else if RoleKey(e, u) !in db.eventRoles then Refused(EventRoleNotFound)
    else Committed(db.(eventRoles := db.eventRoles - {RoleKey(e, u)}))
  }

  ghost function ExecInvite(db: Db, t: Id, caller: Option<Id>, id: Id, row: Invitation): Outcome {
    if Require(db, t, caller).Some? then Refused(Require(db, t, caller).value)
    else if id in db.invitations then Refused(Internal)
    else if InvitationPublicIdTaken(db, row.publicId) then Refused(InvitationPublicIDExists)
    else if TokenTaken(db, row.tokenHash) then Refused(Internal)
    else if t !in db.tenants then Refused(Internal)
    else Committed(db.(invitations := db.invitations[id := row]))
  }

  ghost function ExecAcceptInvite(db: Db, x: Txn, now: int): Outcome
    requires x.AcceptInvite?
  {
    var found := InvitationByToken(db, x.tenant, x.token);
    var k := MemberKey(x.tenant, x.subject);
    if found.None? || !InvitationOpen(db.invitations[found.value], now) then Refused(InvitationRejected)
    else if !x.seenOwned then Refused(TenantPendingOwner)
    else if x.seenArchived then Refused(TenantArchived)
    else if k in db.members then Refused(MembershipAlreadyExists)
    else if x.tenant !in db.tenants then Refused(TenantNotFound)
    else
      var row := db.invitations[found.value];
      Committed(db.(members := db.members[k := Member(row.role, row.name)],
                    invitations := db.invitations[found.value := row.(accepted := Some(Acceptance(now, x.subject)))]))
  }

  ghost function ExecRevokeInvite(db: Db, t: Id, p: Id, now: int): Outcome {
    var found := InvitationByPublicId(db, t, p);
    if found.None? then Refused(InvitationNotFound)
    else if !InvitationOpen(db.invitations[found.value], now) then Refused(InvitationNotPending)
    else Committed(db.(invitations := db.invitations[found.value := db.invitations[found.value].(revoked := Some(now))]))
  }

  ghost function ExecAddMember(db: Db, t: Id, u: Id, role: Role, name: string): Outcome {
    if MemberKey(t, u) in db.members then Refused(MembershipAlreadyExists)
    else if t !in db.tenants then Refused(TenantNotFound)
    else Committed(db.(members := db.members[MemberKey(t, u) := Member(role, name)]))
  }

  /** The three checks of a claim, evaluated together. */
  predicate ClaimMatches(row: Tenant, token: Hash, now: int) {
    row.ownership == PendingOwner &&
    row.expiresAt.Some? && !ClaimExpired(row.expiresAt.value, now) &&
    row.tokenHash == Some(token)
  }

  ghost function ExecClaim(db: Db, x: Txn, now: int): Outcome
    requires x.ClaimTenant?
  {
    var found := TenantByPublicId(db, x.publicId);
    if found.None? then Refused(TenantNotFound)
    else if x.boundTenant.Some? && x.boundTenant.value != x.publicId then Refused(ContextMismatch)
    else
      var row := db.tenants[found.value];
      var k := MemberKey(found.value, x.subject);
      if !ClaimMatches(row, x.token, now) then Refused(ClaimRejected)
      else if k in db.members then Refused(MembershipAlreadyExists)
      else if SubdomainTaken(db, x.subdomain) then Refused(SubdomainExists)
      else Committed(db.(members := db.members[k := Member(RoleOwner, x.name)],
                         tenants := db.tenants[found.value := row.(ownership := Owned, subdomain := Some(x.subdomain),
                                                                   tokenHash := None, expiresAt := None)]))
  }

  /** administerTenant; the mutation is a contract change when a plan is given, an archive otherwise. */
  ghost function ExecAdminister(db: Db, p: Id, caller: Option<Id>, plan: Option<string>): Outcome {
    var found := TenantByPublicId(db, p);
    if found.None? then Refused(TenantNotFound)
    else
      var row := db.tenants[found.value];
      if row.ownership != Owned then Refused(TenantPendingOwner)
      else if row.archived then Refused(TenantArchived)
      else if Require(db, found.value, caller).Some? then Refused(Require(db, found.value, caller).value)
      else Committed(db.(tenants := db.tenants[found.value :=
                                      if plan.Some? then row.(plan := plan.value) else row.(archived := true)]))
  }

  /** CreateEvent. The guard on the archived flag is read by the insert's own snapshot and not
      locked, so it is an observation. */
  ghost function ExecNewEvent(db: Db, x: Txn, open: bool): Outcome
    requires x.NewEvent?
  {
    var k := MemberKey(x.tenant, x.subject);
    if k !in db.members then Refused(CreatorNotMember)
    else if x.tenant !in db.tenants then Refused(TenantNotFound)
    else if !open then Refused(TenantArchived)
    else if x.id in db.events then Refused(Internal)
    else if EventPublicIdTaken(db, x.draft.publicId) then Refused(EventPublicIDExists)
    else if Grantable(db.members[k].role).Some? then Refused(Grantable(db.members[k].role).value)
    else Committed(db.(events := db.events[x.id := x.draft],
                       eventRoles := db.eventRoles[RoleKey(x.id, x.subject) := EventRole(x.tenant, db.members[k].role)]))
  }

  ghost function ExecSetStatus(db: Db, e: Id, name: string, status: EventStatus, open: bool): Outcome {
    if e !in db.events then Refused(EventNotFound)
    else if !open then Refused(TenantArchived)
    else Committed(db.(events := db.events[e := db.events[e].(name := name, status := status)]))
  }

  /** The one-at-a-time meaning of a transaction. */
  ghost function Exec(x: Txn, o: Obs, db: Db): Outcome {
    match x
    case ChangeRole(t, caller, u, role) => ExecChangeRole(db, t, caller, u, role)
    case RevokeMember(t, caller, u) => ExecRevokeMember(db, t, caller, u)
    case GrantRole(t, caller, e, u, role) => ExecGrantRole(db, t, caller, e, u, role)
    case RevokeEventRole(t, caller, e, u) => ExecRevokeEventRole(db, t, caller, e, u)
    case Invite(t, caller, id, row) => ExecInvite(db, t, caller, id, row)
    case AcceptInvite(_, _, _, _, _) => ExecAcceptInvite(db, x, o.now)
    case RevokeInvite(t, p) => ExecRevokeInvite(db, t, p, o.now)
    case AddMember(t, u, role, name) => ExecAddMember(db, t, u, role, name)
    case ClaimTenant(_, _, _, _, _, _) => ExecClaim(db, x, o.now)
    case ChangePlan(p, caller, plan) => ExecAdminister(db, p, caller, Some(plan))
    case ArchiveTenant(p, caller) => ExecAdminister(db, p, caller, None)
    case NewEvent(_, _, _, _) => ExecNewEvent(db, x, o.open)
    case SetStatus(e, name, status) => ExecSetStatus(db, e, name, status, o.open)
  }

  /** What the gates establish about a transaction, and every later state keeps. */
  ghost predicate ParamsOk(db: Db, x: Txn) {
    match x
    case ChangeRole(t, _, _, role) => OwnedTenant(db, t) && StoredRole(role)
    case RevokeMember(t, _, _) => OwnedTenant(db, t)
    case GrantRole(t, _, e, _, role) => OwnedTenant(db, t) && StoredRole(role) && e in db.events && db.events[e].tenantId == t
    case RevokeEventRole(t, _, e, _) => OwnedTenant(db, t) && e in db.events && db.events[e].tenantId == t
    case Invite(t, _, _, row) => OwnedTenant(db, t) && row.tenantId == t && row.role == RoleStaff && ValidName(row.name) &&
                                 row.accepted.None? && row.revoked.None?
    case AcceptInvite(t, owned, _, _, _) => owned ==> OwnedTenant(db, t)
    case RevokeInvite(t, _) => OwnedTenant(db, t)
    case AddMember(t, _, role, name) => OwnedTenant(db, t) && StoredRole(role) && ValidName(name)
    case ClaimTenant(_, _, _, subdomain, _, name) => ValidSubdomain(subdomain) && ValidName(name)
    case ChangePlan(_, _, _) => true
    case ArchiveTenant(_, _) => true
    case NewEvent(t, _, _, row) => OwnedTenant(db, t) && row.tenantId == t && row.tenantPublicId == db.tenants[t].publicId &&
        row.status == Draft
    case SetStatus(e, name, status) => e in db.events && db.events[e].name == name && status != StatusUnspecified
  }

  // ---------------------------------------------------------------- registration

  /** The rows DeleteExpiredPendingTenants removes. */
  function Expired(db: Db, now: int): set<Id> {
    set id | id in db.tenants && db.tenants[id].ownership == PendingOwner &&
             db.tenants[id].expiresAt.Some? && db.tenants[id].expiresAt.value <= now
  }

  // The rows that a delete of tenants does not cascade to.
  function EventsOutside(es: map<Id, Event>, gone: set<Id>): map<Id,
      Event> { map id | id in es && es[id].tenantId !in gone :: es[id] }
  function MembersOutside(ms: map<MemberKey, Member>, gone: set<Id>): map<MemberKey,
      Member> { map k | k in ms && k.tenant !in gone :: ms[k] }
  function RolesOutside(rs: map<RoleKey, EventRole>, gone: set<Id>): map<RoleKey,
      EventRole> { map k | k in rs && rs[k].tenantId !in gone :: rs[k] }
  function InvitationsOutside(ns: map<Id, Invitation>, gone: set<Id>): map<Id,
      Invitation> { map id | id in ns && ns[id].tenantId !in gone :: ns[id] }

  /** The sweep, with the cascades of every foreign key on tenants. */
  function Sweep(db: Db, now: int): Db {
    var gone := Expired(db, now);
    Db(db.tenants - gone, EventsOutside(db.events, gone), MembersOutside(db.members, gone), RolesOutside(db.eventRoles, gone),
       InvitationsOutside(db.invitations, gone))
  }

  /** CreatePendingTenant. */
  ghost function ExecRegister(db: Db, id: Id, row: Tenant): Outcome {
    if id in db.tenants then Refused(Internal)
    else if TenantByPublicId(db, row.publicId).Some? then Refused(TenantPublicIDExists)
    else Committed(db.(tenants := db.tenants[id := row]))
  }

  predicate PendingRow(row: Tenant) {
    row.ownership == PendingOwner && row.tokenHash.Some? && row.expiresAt.Some? && row.subdomain.None? && !row.archived
  }
}

/** What each call answers and does, told from its own arguments: the checks in the order they are made,
    each with its error, and the one change that a call which passes them all leaves in the tables. */
module CallContracts {
  import opened Domain
  import opened Subdomains
  import opened TenantContext
  import opened Tables
  import opened AtomicLaws
  import opened Machine
  import opened Interference
  import opened Refinement
  import opened Service

  // ---------------------------------------------------------------- the checks

  function RoleChecks(role: Role): Option<Error> {
    if role == RoleUnspecified then Some(RoleRequired)
    else if role == RoleAdmin then Some(RoleReserved)
    else None
  }

  function NameChecks(displayName: string): Option<Error> {
    if TrimSpace(displayName) == "" then Some(DisplayNameRequired)
    else if |TrimSpace(displayName)| > 64 then Some(DisplayNameTooLong)
    else None
  }

  /** The caller's own tenant p: there, owned, not archived. */
  ghost function TenantChecks(ctx: Ctx, p: Id, db: Db): Option<Error> {
    var t := TenantByPublicId(db, p);
    if p == "" then Some(TenantIDRequired)
    else if TenantOf(ctx).None? then Some(ContextMissing)
    else if TenantOf(ctx) != Some(p) then Some(ContextMismatch)
    else if t.None? then Some(TenantNotFound)
    else if db.tenants[t.value].ownership != Owned then Some(TenantPendingOwner)
    else if db.tenants[t.value].archived then Some(TenantArchived)
    else None
  }

  predicate InUse(db: Db, t: Id) { t in db.tenants && !db.tenants[t].archived }

  /** An event of the caller's own tenant: there, not archived, nor its tenant. */
  ghost function EventChecks(ctx: Ctx, p: Id, db: Db): Option<Error> {
    var e := EventByPublicId(db, p);
    if p == "" then Some(EventIDRequired)
    else if e.None? then Some(EventNotFound)
    else if TenantOf(ctx).None? then Some(ContextMissing)
    else if TenantOf(ctx) != Some(db.events[e.value].tenantPublicId) then Some(ContextMismatch)
    else if db.events[e.value].status == Archived then Some(EventIsArchived)
    else if !InUse(db, db.events[e.value].tenantId) then Some(TenantArchived)
    else None
  }

  /** The caller is known and owns tenant t: of the roles that are stored, only owner may write. */
  predicate Owns(ctx: Ctx, db: Db, t: Option<Id>) { SubjectOf(ctx).Some? && t.Some? && IsOwner(db, t.value, SubjectOf(ctx).value) }

  function OwnerChecks(ctx: Ctx, db: Db, t: Option<Id>): Option<Error> {
    if SubjectOf(ctx).None? then Some(SubjectMissing)
    else if !Owns(ctx, db, t) then Some(PermissionDenied)
    else None
  }

  /** u is the only owner of t. */
  predicate SoleOwnerOf(db: Db, t: Option<Id>, u: Id) { t.Some? && Owners(db, t.value) == {u} }

  predicate MemberOf(db: Db, t: Option<Id>, u: Id) { t.Some? && MemberKey(t.value, u) in db.members }

  ghost function TenantOfEventNamed(db: Db, p: Id): Option<Id> {
    var e := EventByPublicId(db, p);
    if e.Some? then Some(db.events[e.value].tenantId) else None
  }

  /** Pending, its token matching and its claim running. */
  predicate LiveClaim(row: Tenant, h: Hash, now: int) {
    row.ownership == PendingOwner && row.tokenHash == Some(h) && row.expiresAt.Some? && now < row.expiresAt.value
  }

  predicate LiveInvitation(row: Invitation, now: int) { row.accepted.None? && row.revoked.None? && now < row.expiresAt }

  /** The tables that a call finds: a registration sweeps first. */
  function Found(call: Call, now: int, db: Db): Db {
    if call.StartTenantRegistration? && call.name != "" && call.plan != "" then Sweep(db, now) else db
  }

  /** Why the call is refused, if it is: the first check that fails. */
  ghost function Refusal(c: Config, now: int, call: Call, ctx: Ctx, db: Db): Option<Error> {
    match call
    case StartTenantRegistration(name, plan, id, p, _) =>
      if name == "" then Some(TenantNameRequired)
      else if plan == "" then Some(ContractPlanRequired)
      else if id in Sweep(db, now).tenants then Some(Internal)
      else if TenantByPublicId(Sweep(db, now), p).Some? then Some(TenantPublicIDExists)
      else None
    case ClaimTenantOwnership(p, token, subdomain, displayName) =>
      var t := TenantByPublicId(db, p);
      if p == "" then Some(TenantIDRequired)
      else if token == "" then Some(ClaimTokenRequired)
      else if !ValidSubdomain(subdomain) then Some(InvalidSubdomain)
      else if NameChecks(displayName).Some? then NameChecks(displayName)
      else if SubjectOf(ctx).None? then Some(SubjectMissing)
      else if t.None? then Some(TenantNotFound)
      else if TenantOf(ctx) !in {None, Some(p)} then Some(ContextMismatch)
      else if !LiveClaim(db.tenants[t.value], c.sha(token), now) then Some(ClaimRejected)
      else if SubdomainTaken(db, subdomain) then Some(SubdomainExists)
      else None
    case ChangeTenantContract(p, plan) =>
      if plan == "" then Some(ContractPlanRequired)
      else if TenantChecks(ctx, p, db).Some? then TenantChecks(ctx, p, db)
      else OwnerChecks(ctx, db, TenantByPublicId(db, p))
    case ArchiveTenantCall(p) =>
      if TenantChecks(ctx, p, db).Some? then TenantChecks(ctx, p, db)
      else OwnerChecks(ctx, db, TenantByPublicId(db, p))
    case CreateEvent(p, name, id, newPublicId) =>
      if name == "" then Some(EventNameRequired)
      else if TenantChecks(ctx, p, db).Some? then TenantChecks(ctx, p, db)
      else if SubjectOf(ctx).None? then Some(SubjectMissing)
      else if !MemberOf(db, TenantByPublicId(db, p), SubjectOf(ctx).value) then Some(CreatorNotMember)
      else if id in db.events then Some(Internal)
      else if EventPublicIdTaken(db, newPublicId) then Some(EventPublicIDExists)
      else None
    case TransitionEventStatus(p, to) =>
      var e := EventByPublicId(db, p);
      if p == "" then Some(EventIDRequired)
      else if to == StatusUnspecified then Some(EventStatusRequired)
      else if e.None? then Some(EventNotFound)
      else if TenantOf(ctx).None? then Some(ContextMissing)
      else if TenantOf(ctx) != Some(db.events[e.value].tenantPublicId) then Some(ContextMismatch)
      else if !CanTransition(db.events[e.value].status, to) then Some(InvalidTransition)
      else if !InUse(db, db.events[e.value].tenantId) then Some(TenantArchived)
      else None
    case AddTenantMember(p, u, role, displayName) =>
      if u == "" then Some(UserIDRequired)
      else if RoleChecks(role).Some? then RoleChecks(role)
      else if NameChecks(displayName).Some? then NameChecks(displayName)
      else if TenantChecks(ctx, p, db).Some? then TenantChecks(ctx, p, db)
      else if MemberOf(db, TenantByPublicId(db, p), u) then Some(MembershipAlreadyExists)
      else None
    case ChangeTenantRole(p, u, role) =>
      var t := TenantByPublicId(db, p);
      if u == "" then Some(UserIDRequired)
      else if RoleChecks(role).Some? then RoleChecks(role)
      else if TenantChecks(ctx, p, db).Some? then TenantChecks(ctx, p, db)
      else if OwnerChecks(ctx, db, t).Some? then OwnerChecks(ctx, db, t)
      else if role != RoleOwner && SoleOwnerOf(db, t, u) then Some(LastOwner)
      else if !MemberOf(db, t, u) then Some(MembershipNotFound)
      else None
    case GrantEventRole(p, u, role) =>
      var t := TenantOfEventNamed(db, p);
      if u == "" then Some(UserIDRequired)
      else if RoleChecks(role).Some? then RoleChecks(role)
      else if EventChecks(ctx, p, db).Some? then EventChecks(ctx, p, db)
      else if OwnerChecks(ctx, db, t).Some? then OwnerChecks(ctx, db, t)
      else if !MemberOf(db, t, u) then Some(TenantMembershipRequired)
      else None
    case RevokeRole(u, p, ep) =>
      if u == "" then Some(UserIDRequired)
      else if p != "" && ep != "" then Some(ScopeAmbiguous)
      else if p == "" && ep == "" then Some(ScopeRequired)
      else if p != "" then
        var t := TenantByPublicId(db, p);
        if TenantChecks(ctx, p, db).Some? then TenantChecks(ctx, p, db)
        else if OwnerChecks(ctx, db, t).Some? then OwnerChecks(ctx, db, t)
        else if SoleOwnerOf(db, t, u) then Some(LastOwner)
        else if !MemberOf(db, t, u) then Some(MembershipNotFound)
        else None
      else
        var t, e := TenantOfEventNamed(db, ep), EventByPublicId(db, ep);
        if EventChecks(ctx, ep, db).Some? then EventChecks(ctx, ep, db)
        else if OwnerChecks(ctx, db, t).Some? then OwnerChecks(ctx, db, t)
        else if e.None? || RoleKey(e.value, u) !in db.eventRoles then Some(EventRoleNotFound)
        else None
    case CreateTenantInvitation(p, role, displayName, id, newPublicId, token) =>
      var t := TenantByPublicId(db, p);
      if role != RoleStaff then Some(RoleNotInvitable)
      else if NameChecks(displayName).Some? then NameChecks(displayName)
      else if TenantChecks(ctx, p, db).Some? then TenantChecks(ctx, p, db)
      else if OwnerChecks(ctx, db, t).Some? then OwnerChecks(ctx, db, t)
      else if id in db.invitations then Some(Internal)
      else if InvitationPublicIdTaken(db, newPublicId) then Some(InvitationPublicIDExists)
      else if TokenTaken(db, c.sha(token)) then Some(Internal)
      else None
    case RevokeTenantInvitation(p, invitation) =>
      var t := TenantByPublicId(db, p);
      var i := if t.Some? then InvitationByPublicId(db, t.value, invitation) else None;
      if invitation == "" then Some(InvitationIDRequired)
      else if TenantChecks(ctx, p, db).Some? then TenantChecks(ctx, p, db)
      else if i.None? then Some(InvitationNotFound)
      else if !LiveInvitation(db.invitations[i.value], now) then Some(InvitationNotPending)
      else None
    case AcceptTenantInvitation(p, token) =>
      var t := TenantByPublicId(db, p);
      var i := if t.Some? then InvitationByToken(db, t.value, c.sha(token)) else None;
      if p == "" then Some(TenantIDRequired)
      else if token == "" then Some(InvitationTokenRequired)
      else if SubjectOf(ctx).None? then Some(SubjectMissing)
      else if t.None? then Some(TenantNotFound)
      else if TenantOf(ctx) !in {None, Some(p)} then Some(ContextMismatch)
      else if i.None? || !LiveInvitation(db.invitations[i.value], now) then Some(InvitationRejected)
      else if !InUse(db, t.value) then Some(TenantArchived)
      else if MemberOf(db, t, SubjectOf(ctx).value) then Some(MembershipAlreadyExists)
      else None
  }

  // ---------------------------------------------------------------- the effects

  predicate MemberStored(db: Db, db': Db, k: MemberKey, role: Role, name: string) {
    k !in db.members && db' == db.(members := db.members[k := Member(role, name)])
  }

  predicate RoleStored(db: Db, db': Db, k: MemberKey, role: Role) {
    k in db.members && db' == db.(members := db.members[k := Member(role, db.members[k].name)])
  }

  /** The membership is gone, and with it exactly the event roles that its user held in the tenant. */
  ghost predicate MemberGone(db: Db, db': Db, k: MemberKey) {
    k in db.members && db' == db.(members := db'.members, eventRoles := db'.eventRoles) && db'.members == db.members - {k} &&
    forall rk :: (rk in db'.eventRoles <==> rk in db.eventRoles && !(rk.user == k.user && db.eventRoles[rk].tenantId == k.tenant)) &&
                 (rk in db'.eventRoles ==> db'.eventRoles[rk] == db.eventRoles[rk])
  }

  predicate TenantStored(db: Db, db': Db, t: Id, row: Tenant) { db' == db.(tenants := db.tenants[t := row]) }

  /** What a call that succeeds changes, given the time it read the clock: this, and nothing else. */
  ghost predicate TakesEffect(c: Config, call: Call, ctx: Ctx, at: int, db: Db, db': Db) {
    match call
    case StartTenantRegistration(name, plan, id, p, token) =>
      id !in db.tenants &&
      TenantStored(db, db', id, Tenant(p, name, plan, PendingOwner, None, Some(c.sha(token)), Some(at + c.claimTtl), false))
    case ClaimTenantOwnership(p, token, subdomain, displayName) =>
      var t := TenantByPublicId(db, p);
      t.Some? && SubjectOf(ctx).Some? && LiveClaim(db.tenants[t.value], c.sha(token), at) &&
      var row, k := db.tenants[t.value], MemberKey(t.value, SubjectOf(ctx).value);
      k !in db.members &&
      db' == db.(members := db.members[k := Member(RoleOwner, TrimSpace(displayName))],
                 tenants := db.tenants[t.value := Tenant(p, row.name, row.plan, Owned, Some(subdomain), None, None, row.archived)])
    case ChangeTenantContract(p, plan) =>
      var t := TenantByPublicId(db, p);
      t.Some? && TenantStored(db, db', t.value, db.tenants[t.value].(plan := plan))
    case ArchiveTenantCall(p) =>
      var t := TenantByPublicId(db, p);
      t.Some? && TenantStored(db, db', t.value, db.tenants[t.value].(archived := true))
    case CreateEvent(p, name, id, newPublicId) =>
      var t := TenantByPublicId(db, p);
      t.Some? && SubjectOf(ctx).Some? && MemberOf(db, t, SubjectOf(ctx).value) && id !in db.events &&
      var u := SubjectOf(ctx).value;
      db' == db.(events := db.events[id := Event(newPublicId, t.value, p, name, Draft)],
                 eventRoles := db.eventRoles[RoleKey(id, u) := EventRole(t.value, db.members[MemberKey(t.value, u)].role)])
    case TransitionEventStatus(p, to) =>
      var e := EventByPublicId(db, p);
      e.Some? && db' == db.(events := db.events[e.value := db.events[e.value].(status := to)])
    case AddTenantMember(p, u, role, displayName) =>
      var t := TenantByPublicId(db, p);
      t.Some? && MemberStored(db, db', MemberKey(t.value, u), role, TrimSpace(displayName))
    case ChangeTenantRole(p, u, role) =>
      var t := TenantByPublicId(db, p);
      t.Some? && RoleStored(db, db', MemberKey(t.value, u), role)
    case GrantEventRole(p, u, role) =>
      var e := EventByPublicId(db, p);
      e.Some? && MemberOf(db, Some(db.events[e.value].tenantId), u) &&
      db' == db.(eventRoles := db.eventRoles[RoleKey(e.value, u) := EventRole(db.events[e.value].tenantId, role)])
    case RevokeRole(u, p, ep) =>
      var t, e := TenantByPublicId(db, p), EventByPublicId(db, ep);
      if p != "" then t.Some? && MemberGone(db, db', MemberKey(t.value, u))
      else e.Some? && RoleKey(e.value, u) in db.eventRoles && db' == db.(eventRoles := db.eventRoles - {RoleKey(e.value, u)})
    case CreateTenantInvitation(p, role, displayName, id, newPublicId, token) =>
      var t := TenantByPublicId(db, p);
      t.Some? && id !in db.invitations &&
      db' == db.(invitations := db.invitations[id := Invitation(newPublicId, t.value, RoleStaff, TrimSpace(displayName), c.sha(token),
                                                                at + c.invitationTtl, None, None)])
    case RevokeTenantInvitation(p, invitation) =>
      var t := TenantByPublicId(db, p);
      t.Some? &&
      var i := InvitationByPublicId(db, t.value, invitation);
      i.Some? && LiveInvitation(db.invitations[i.value], at) &&
      db' == db.(invitations := db.invitations[i.value := db.invitations[i.value].(revoked := Some(at))])
    case AcceptTenantInvitation(p, token) =>
      var t := TenantByPublicId(db, p);
      t.Some? && SubjectOf(ctx).Some? &&
      var i, k := InvitationByToken(db, t.value, c.sha(token)), MemberKey(t.value, SubjectOf(ctx).value);
      i.Some? && LiveInvitation(db.invitations[i.value], at) && k !in db.members &&
      var row := db.invitations[i.value];
      db' == db.(members := db.members[k := Member(RoleStaff, row.name)],
                 invitations := db.invitations[i.value := row.(accepted := Some(Acceptance(at, k.user)))])
  }

  /** The call is refused over the first check it fails, and leaves the tables as it found them; or it
      passes them all, succeeds, and makes its one change. */
  ghost predicate AsContracted(c: Config, now: int, call: Call, ctx: Ctx, db: Db, a: Answer) {
    var e, found := Refusal(c, now, call, ctx, db), Found(call, now, db);
    if e.Some? then a == Answer(Failure(e.value), found)
    else a.reply == Success && TakesEffect(c, call, ctx, now, found, a.db)
  }

  // ---------------------------------------------------------------- call by call

  lemma OwnerGate(ctx: Ctx, db: Db, t: Id)
    requires DbOk(db)
    ensures Require(db, t, SubjectOf(ctx)) == OwnerChecks(ctx, db, Some(t))
  {
    hide DbOk, SubjectOf, Grants;
    if SubjectOf(ctx).Some? && MemberKey(t, SubjectOf(ctx).value) in db.members {
      MemberHome(db, MemberKey(t, SubjectOf(ctx).value));
      WriteScope(db.members[MemberKey(t, SubjectOf(ctx).value)].role);
    }
  }

  /** The rows that a tenant or an event found by its public ID has around it. */
  lemma FoundRows(db: Db, p: Id)
    requires DbOk(db)
    ensures EventByPublicId(db, p).Some? ==>
              var row := db.events[EventByPublicId(db, p).value];
              OwnedTenant(db, row.tenantId) && TenantByPublicId(db, row.tenantPublicId) == Some(row.tenantId)
  {
    hide DbOk;
    if EventByPublicId(db, p).Some? {
      var row := db.events[EventByPublicId(db, p).value];
      EventHome(db, EventByPublicId(db, p).value);
      TenantFound(db, row.tenantId);
    }
  }

  lemma TenantGate(ctx: Ctx, p: Id, db: Db)
    ensures var t := WritableTenant(ctx, p, db);
            TenantChecks(ctx, p, db) == (if t.Err? then Some(t.error) else None) && (t.Ok? ==> TenantByPublicId(db, p) == Some(t.value))
  {
    hide TenantByPublicId, SubjectOf, TenantOf, VerifyOwnership;
    Principal(ctx, "");
  }

  lemma EventGate(ctx: Ctx, p: Id, db: Db)
    requires DbOk(db)
    ensures var e := WritableEvent(ctx, p, db);
            if e.Err? then EventChecks(ctx, p, db) == Some(e.error)
            else
              var row := db.events[e.value];
              var t := WritableTenant(ctx, row.tenantPublicId, db);
              EventByPublicId(db, p) == Some(e.value) && EventChecks(ctx, p, db) == (if t.Err? then Some(t.error) else None)
  {
    hide DbOk, TenantByPublicId, EventByPublicId, SubjectOf;
    FoundRows(db, p);
  }

  lemma NameGate(displayName: string)
    ensures var n := ParseDisplayName(displayName);
            NameChecks(displayName) == (if n.Err? then Some(n.error) else None) && (n.Ok? ==> n.value == TrimSpace(displayName))
  {
    hide TrimSpace;
  }

  lemma RoleGate(role: Role)
    ensures Grantable(role) == RoleChecks(role)
  {
  }

  lemma AdministerIs(ctx: Ctx, db: Db, p: Id, plan: Option<string>)
    requires DbOk(db)
    ensures var o, t := ExecAdminister(db, p, SubjectOf(ctx), plan), TenantByPublicId(db, p);
            var e := if t.None? then Some(TenantNotFound)
                     else if db.tenants[t.value].ownership != Owned then Some(TenantPendingOwner)
                     else if db.tenants[t.value].archived then Some(TenantArchived)
                     else OwnerChecks(ctx, db, t);
            (e.Some? ==> o == Refused(e.value)) &&
            (e.None? ==> o.Committed? && TenantStored(db, o.db, t.value, if plan.Some? then db.tenants[t.value].(plan := plan.value)
                                                                         else db.tenants[t.value].(archived := true)))
  {
    hide DbOk, SubjectOf, Require, OwnerChecks, TenantByPublicId, EventByPublicId, InvitationByToken,
         InvitationByPublicId;
    var t := TenantByPublicId(db, p);
    if t.Some? { OwnerGate(ctx, db, t.value); }
  }

  lemma ContractOfTenantCalls(c: Config, now: int, call: Call, ctx: Ctx, db: Db)
    requires DbOk(db) && (call.ChangeTenantContract? || call.ArchiveTenantCall?)
    ensures AsContracted(c, now, call, ctx, db, Alone(c, now, call, ctx, db))
  {
    hide DbOk, SubjectOf, TenantOf, OwnerChecks, ExecAdminister, TenantByPublicId, EventByPublicId, InvitationByToken,
         InvitationByPublicId;
    BoundaryChecks(ctx, call.tenant, "", None);
    AdministerIs(ctx, db, call.tenant, if call.ChangeTenantContract? then Some(call.plan) else None);
  }

  lemma ContractOfRegistration(c: Config, now: int, call: Call, ctx: Ctx, db: Db)
    requires call.StartTenantRegistration?
    ensures AsContracted(c, now, call, ctx, db, Alone(c, now, call, ctx, db))
  {
    hide DbOk, SubjectOf, TenantOf, Sweep;
  }

  lemma ContractOfClaim(c: Config, now: int, call: Call, ctx: Ctx, db: Db)
    requires DbOk(db) && call.ClaimTenantOwnership?
    ensures AsContracted(c, now, call, ctx, db, Alone(c, now, call, ctx, db))
  {
    hide DbOk, SubjectOf, TenantOf, WritableTenant, WritableEvent, TenantChecks, EventChecks, NameChecks,
         ParseDisplayName, RoleChecks, Grantable, OwnerChecks, Require, TenantByPublicId, EventByPublicId,
         InvitationByToken, InvitationByPublicId, ValidSubdomain, TrimSpace, SubdomainTaken;
    NameGate(call.displayName);
    BoundaryChecks(ctx, call.tenant, "", None);
    var t := TenantByPublicId(db, call.tenant);
    if t.Some? && SubjectOf(ctx).Some? && MemberKey(t.value, SubjectOf(ctx).value) in db.members {
      MemberHome(db, MemberKey(t.value, SubjectOf(ctx).value));
    }
  }

  lemma ContractOfCreation(c: Config, now: int, call: Call, ctx: Ctx, db: Db)
    requires DbOk(db) && call.CreateEvent?
    ensures AsContracted(c, now, call, ctx, db, Alone(c, now, call, ctx, db))
  {
    hide DbOk, SubjectOf, TenantOf, WritableTenant, WritableEvent, TenantChecks, EventChecks, NameChecks,
         ParseDisplayName, RoleChecks, Grantable, OwnerChecks, Require, TenantByPublicId, EventByPublicId,
         InvitationByToken, InvitationByPublicId, EventPublicIdTaken;
    var t := TenantByPublicId(db, call.tenant);
    TenantGate(ctx, call.tenant, db);
    if t.Some? && SubjectOf(ctx).Some? && MemberKey(t.value, SubjectOf(ctx).value) in db.members {
      MemberHome(db, MemberKey(t.value, SubjectOf(ctx).value));
      WriteScope(db.members[MemberKey(t.value, SubjectOf(ctx).value)].role);
    }
  }

  lemma ContractOfTransition(c: Config, now: int, call: Call, ctx: Ctx, db: Db)
    requires DbOk(db) && call.TransitionEventStatus?
    ensures AsContracted(c, now, call, ctx, db, Alone(c, now, call, ctx, db))
  {
    hide DbOk, SubjectOf, TenantOf, WritableTenant, WritableEvent, TenantChecks, EventChecks, NameChecks,
         ParseDisplayName, RoleChecks, Grantable, OwnerChecks, Require, TenantByPublicId, EventByPublicId,
         InvitationByToken, InvitationByPublicId, CanTransition;
    FoundRows(db, call.event);
    var e := EventByPublicId(db, call.event);
    if e.Some? { BoundaryChecks(ctx, db.events[e.value].tenantPublicId, "", None); }
  }

  lemma ContractOfAddMember(c: Config, now: int, call: Call, ctx: Ctx, db: Db)
    requires DbOk(db) && call.AddTenantMember?
    ensures AsContracted(c, now, call, ctx, db, Alone(c, now, call, ctx, db))
  {
    hide DbOk, SubjectOf, TenantOf, WritableTenant, WritableEvent, TenantChecks, EventChecks, NameChecks,
         ParseDisplayName, RoleChecks, Grantable, OwnerChecks, Require, TenantByPublicId, EventByPublicId,
         InvitationByToken, InvitationByPublicId, TrimSpace;
    NameGate(call.displayName);
    RoleGate(call.role);
    TenantGate(ctx, call.tenant, db);
  }

  lemma ContractOfRoleChange(c: Config, now: int, call: Call, ctx: Ctx, db: Db)
    requires DbOk(db) && call.ChangeTenantRole?
    ensures AsContracted(c, now, call, ctx, db, Alone(c, now, call, ctx, db))
  {
    hide DbOk, SubjectOf, TenantOf, WritableTenant, WritableEvent, TenantChecks, EventChecks, NameChecks,
         ParseDisplayName, RoleChecks, Grantable, OwnerChecks, Require, TenantByPublicId, EventByPublicId,
         InvitationByToken, InvitationByPublicId, KeepAnotherOwner, Owners;
    RoleGate(call.role);
    TenantGate(ctx, call.tenant, db);
    var t := TenantByPublicId(db, call.tenant);
    if t.Some? {
      OwnerGate(ctx, db, t.value);
      LastOwnerIs(db, t.value, call.user);
    }
  }

  lemma LastOwnerIs(db: Db, t: Id, u: Id)
    ensures KeepAnotherOwner(db, t, u) == if Owners(db, t) == {u} then Some(LastOwner) else None
  {
    LastOwnerRule(db, t, u);
  }

  lemma ContractOfGrant(c: Config, now: int, call: Call, ctx: Ctx, db: Db)
    requires DbOk(db) && call.GrantEventRole?
    ensures AsContracted(c, now, call, ctx, db, Alone(c, now, call, ctx, db))
  {
    hide DbOk, SubjectOf, TenantOf, WritableTenant, WritableEvent, TenantChecks, EventChecks, NameChecks,
         ParseDisplayName, RoleChecks, Grantable, OwnerChecks, Require, TenantByPublicId, EventByPublicId,
         InvitationByToken, InvitationByPublicId, Owners;
    RoleGate(call.role);
    EventGate(ctx, call.event, db);
    FoundRows(db, call.event);
    var e := EventByPublicId(db, call.event);
    if e.Some? {
      OwnerGate(ctx, db, db.events[e.value].tenantId);
      if RoleKey(e.value, call.user) in db.eventRoles { RoleHome(db, RoleKey(e.value, call.user)); }
    }
  }

  lemma ContractOfRevocation(c: Config, now: int, call: Call, ctx: Ctx, db: Db)
    requires DbOk(db) && call.RevokeRole?
    ensures AsContracted(c, now, call, ctx, db, Alone(c, now, call, ctx, db))
  {
    hide DbOk, SubjectOf, TenantOf, WritableTenant, WritableEvent, TenantChecks, EventChecks, NameChecks,
         ParseDisplayName, RoleChecks, Grantable, OwnerChecks, Require, TenantByPublicId, EventByPublicId,
         InvitationByToken, InvitationByPublicId, KeepAnotherOwner, Owners;
    TenantGate(ctx, call.tenant, db);
    EventGate(ctx, call.event, db);
    FoundRows(db, call.event);
    var t, e := TenantByPublicId(db, call.tenant), EventByPublicId(db, call.event);
    if t.Some? {
      OwnerGate(ctx, db, t.value);
      LastOwnerIs(db, t.value, call.user);
    }
    if e.Some? { OwnerGate(ctx, db, db.events[e.value].tenantId); }
  }

  lemma ContractOfInvitation(c: Config, now: int, call: Call, ctx: Ctx, db: Db)
    requires DbOk(db) && call.CreateTenantInvitation?
    ensures AsContracted(c, now, call, ctx, db, Alone(c, now, call, ctx, db))
  {
    hide DbOk, SubjectOf, TenantOf, WritableTenant, WritableEvent, TenantChecks, EventChecks, NameChecks,
         ParseDisplayName, RoleChecks, Grantable, OwnerChecks, Require, TenantByPublicId, EventByPublicId,
         InvitationByToken, InvitationByPublicId, TrimSpace, InvitationPublicIdTaken, TokenTaken;
    NameGate(call.displayName);
    TenantGate(ctx, call.tenant, db);
    var t := TenantByPublicId(db, call.tenant);
    if t.Some? { OwnerGate(ctx, db, t.value); }
  }

  lemma ContractOfInvitationRevoke(c: Config, now: int, call: Call, ctx: Ctx, db: Db)
    requires DbOk(db) && call.RevokeTenantInvitation?
    ensures AsContracted(c, now, call, ctx, db, Alone(c, now, call, ctx, db))
  {
    hide DbOk, SubjectOf, TenantOf, WritableTenant, WritableEvent, TenantChecks, EventChecks, NameChecks,
         ParseDisplayName, RoleChecks, Grantable, OwnerChecks, Require, TenantByPublicId, EventByPublicId,
         InvitationByToken, InvitationByPublicId, Owners;
    TenantGate(ctx, call.tenant, db);
  }

  lemma ContractOfAcceptance(c: Config, now: int, call: Call, ctx: Ctx, db: Db)
    requires DbOk(db) && call.AcceptTenantInvitation?
    ensures AsContracted(c, now, call, ctx, db, Alone(c, now, call, ctx, db))
  {
    hide DbOk, SubjectOf, TenantOf, WritableTenant, WritableEvent, TenantChecks, EventChecks, NameChecks,
         ParseDisplayName, RoleChecks, Grantable, OwnerChecks, Require, TenantByPublicId, EventByPublicId,
         InvitationByToken, InvitationByPublicId, Owners;
    BoundaryChecks(ctx, call.tenant, "", None);
    var t := TenantByPublicId(db, call.tenant);
    if t.Some? && InvitationByToken(db, t.value, c.sha(call.token)).Some? {
      InvitationHome(db, InvitationByToken(db, t.value, c.sha(call.token)).value);
    }
  }

  /** Every call, run by itself on any tables that meet the constraints, does what its arguments say. */
  lemma AnswersExactly(c: Config, now: int, call: Call, ctx: Ctx, db: Db)
    requires DbOk(db)
    ensures AsContracted(c, now, call, ctx, db, Alone(c, now, call, ctx, db))
  {
    hide DbOk, AsContracted, Alone;
    match call
    case StartTenantRegistration(_, _, _, _, _) => ContractOfRegistration(c, now, call, ctx, db);
    case ClaimTenantOwnership(_, _, _, _) => ContractOfClaim(c, now, call, ctx, db);
    case ChangeTenantContract(_, _) => ContractOfTenantCalls(c, now, call, ctx, db);
    case ArchiveTenantCall(_) => ContractOfTenantCalls(c, now, call, ctx, db);
    case CreateEvent(_, _, _, _) => ContractOfCreation(c, now, call, ctx, db);
    case TransitionEventStatus(_, _) => ContractOfTransition(c, now, call, ctx, db);
    case AddTenantMember(_, _, _, _) => ContractOfAddMember(c, now, call, ctx, db);
    case ChangeTenantRole(_, _, _) => ContractOfRoleChange(c, now, call, ctx, db);
    case GrantEventRole(_, _, _) => ContractOfGrant(c, now, call, ctx, db);
    case RevokeRole(_, _, _) => ContractOfRevocation(c, now, call, ctx, db);
    case CreateTenantInvitation(_, _, _, _, _, _) => ContractOfInvitation(c, now, call, ctx, db);
    case RevokeTenantInvitation(_, _) => ContractOfInvitationRevoke(c, now, call, ctx, db);
    case AcceptTenantInvitation(_, _) => ContractOfAcceptance(c, now, call, ctx, db);
  }

  // ---------------------------------------------------------------- when a call succeeds, and what is then stored

  predicate NamedTenant(db: Db, t: Id, p: Id) { t in db.tenants && db.tenants[t].publicId == p }
  predicate NamedEvent(db: Db, e: Id, p: Id) { e in db.events && db.events[e].publicId == p }

  /** Tenant t goes by p, is owned and not archived, and the caller is of this tenant and owns it. */
  predicate Administrates(ctx: Ctx, p: Id, db: Db, t: Id) {
    p != "" && TenantOf(ctx) == Some(p) && NamedTenant(db, t, p) && db.tenants[t].ownership == Owned && !db.tenants[t].archived &&
    SubjectOf(ctx).Some? && IsOwner(db, t, SubjectOf(ctx).value)
  }

  lemma NameFinds(db: Db, p: Id)
    requires DbOk(db)
    ensures forall t :: NamedTenant(db, t, p) ==> TenantByPublicId(db, p) == Some(t)
    ensures forall e :: NamedEvent(db, e, p) ==> EventByPublicId(db, p) == Some(e)
  {
    hide DbOk, TenantByPublicId, EventByPublicId;
    forall t | NamedTenant(db, t, p) ensures TenantByPublicId(db, p) == Some(t) { TenantFound(db, t); }
    forall e | NamedEvent(db, e, p) ensures EventByPublicId(db, p) == Some(e) { EventFound(db, e); }
  }

  /** Everything an acceptance needs: a tenant in use, an open invitation of it with this token, a known
      caller of no other tenant who is no member yet. */
  predicate MayAccept(c: Config, now: int, p: Id, token: string, ctx: Ctx, db: Db, t: Id, u: Id, i: Id) {
    p != "" && token != "" && SubjectOf(ctx) == Some(u) && TenantOf(ctx) in {None, Some(p)} &&
    NamedTenant(db, t, p) && db.tenants[t].ownership == Owned && !db.tenants[t].archived &&
    i in db.invitations && db.invitations[i].tenantId == t && db.invitations[i].tokenHash == c.sha(token) &&
    db.invitations[i].accepted.None? && db.invitations[i].revoked.None? && now < db.invitations[i].expiresAt &&
    MemberKey(t, u) !in db.members
  }

  /** An acceptance succeeds exactly then; the invitation is marked, and the caller is a staff member
      under the invitation's display name. */
  lemma AcceptsExactly(c: Config, now: int, p: Id, token: string, ctx: Ctx, db: Db)
    requires DbOk(db)
    ensures var a := Alone(c, now, AcceptTenantInvitation(p, token), ctx, db);
            (a.reply == Success <==> exists t, u, i :: MayAccept(c, now, p, token, ctx, db, t, u, i)) &&
            (forall t, u, i :: MayAccept(c, now, p, token, ctx, db, t, u, i) ==>
               a.db == db.(members := db.members[MemberKey(t, u) := Member(RoleStaff, db.invitations[i].name)],
                           invitations := db.invitations[i := db.invitations[i].(accepted := Some(Acceptance(now, u)))]))
  {
    hide DbOk, Alone, SubjectOf, TenantOf, TenantByPublicId, InvitationByToken;
    var call := AcceptTenantInvitation(p, token);
    var a := Alone(c, now, call, ctx, db);
    AnswersExactly(c, now, call, ctx, db);
    NameFinds(db, p);
    forall t, u, i | MayAccept(c, now, p, token, ctx, db, t, u, i)
      ensures a.reply == Success && TakesEffect(c, call, ctx, now, db, a.db) && InvitationByToken(db, t, c.sha(token)) == Some(i)
    {
      InvitationFound(db, i);
    }
    if a.reply == Success {
      var t := TenantByPublicId(db, p).value;
      var i := InvitationByToken(db, t, c.sha(token)).value;
      InvitationHome(db, i);
      assert MayAccept(c, now, p, token, ctx, db, t, SubjectOf(ctx).value, i);
    }
  }

  /** A role change succeeds exactly for an owner of the tenant, a member u and a role that is stored,
      unless it takes the owner role from the sole owner; it stores that role, and no more. It is refused
      over the last owner exactly when everything before that check is in order. */
  lemma ChangesRoleExactly(c: Config, now: int, p: Id, u: Id, role: Role, ctx: Ctx, db: Db)
    requires DbOk(db)
    ensures var a := Alone(c, now, ChangeTenantRole(p, u, role), ctx, db);
            (a.reply == Success <==>
               u != "" && StoredRole(role) &&
               exists t :: Administrates(ctx, p, db, t) && MemberKey(t, u) in db.members && (role == RoleOwner || Owners(db, t) != {u})) &&
            (a.reply == Failure(LastOwner) <==>
               u != "" && role == RoleStaff && exists t :: Administrates(ctx, p, db, t) && Owners(db, t) == {u}) &&
            (forall t :: a.reply == Success && NamedTenant(db, t, p) ==>
               a.db == db.(members := db.members[MemberKey(t, u) := Member(role, db.members[MemberKey(t, u)].name)]))
  {
    hide DbOk, Alone, SubjectOf, TenantOf, TenantByPublicId, Owners;
    AnswersExactly(c, now, ChangeTenantRole(p, u, role), ctx, db);
    NameFinds(db, p);
  }

  /** An event role is granted exactly by an owner of the event's tenant, to a member, for an event not
      archived; it is stored under the event's tenant, and nothing else changes. */
  lemma GrantsExactly(c: Config, now: int, p: Id, u: Id, role: Role, ctx: Ctx, db: Db)
    requires DbOk(db)
    ensures var a := Alone(c, now, GrantEventRole(p, u, role), ctx, db);
            (a.reply == Success <==> exists e :: MayGrant(ctx, p, u, role, db, e)) &&
            (forall e :: MayGrant(ctx, p, u, role, db, e) ==>
               a.db == db.(eventRoles := db.eventRoles[RoleKey(e, u) := EventRole(db.events[e].tenantId, role)]))
  {
    hide DbOk, Alone, SubjectOf, TenantOf, TenantByPublicId, EventByPublicId;
    AnswersExactly(c, now, GrantEventRole(p, u, role), ctx, db);
    NameFinds(db, p);
    FoundRows(db, p);
    Principal(ctx, "");
    if EventByPublicId(db, p).Some? { EventHome(db, EventByPublicId(db, p).value); }
    var a := Alone(c, now, GrantEventRole(p, u, role), ctx, db);
    if a.reply == Success {
      assert MayGrant(ctx, p, u, role, db, EventByPublicId(db, p).value);
    }
  }

  predicate MayGrant(ctx: Ctx, p: Id, u: Id, role: Role, db: Db, e: Id) {
    p != "" && u != "" && StoredRole(role) && NamedEvent(db, e, p) && db.events[e].status != Archived &&
    Administrates(ctx, db.events[e].tenantPublicId, db, db.events[e].tenantId) && MemberKey(db.events[e].tenantId, u) in db.members
  }

  /** An invitation is created exactly by an owner of the tenant, for a staff member, under a name that
      parses, with fresh identifiers; one open row is stored, with the hash of the token that is handed
      out, to expire after the lifetime of invitations. */
  lemma InvitesExactly(c: Config, now: int, p: Id, role: Role, displayName: string, id: Id, newPublicId: Id, token: string,
      ctx: Ctx, db: Db)
    requires DbOk(db)
    ensures var a := Alone(c, now, CreateTenantInvitation(p, role, displayName, id, newPublicId, token), ctx, db);
            (a.reply == Success <==>
               role == RoleStaff && ParseDisplayName(displayName).Ok? && id !in db.invitations &&
               !InvitationPublicIdTaken(db, newPublicId) && !TokenTaken(db, c.sha(token)) && exists t :: Administrates(ctx, p, db, t)) &&
            (forall t :: a.reply == Success && NamedTenant(db, t, p) ==>
               a.db == db.(invitations := db.invitations[id :=
                             Invitation(newPublicId, t, RoleStaff, ParseDisplayName(displayName).value, c.sha(token), now + c.invitationTtl,
                                        None, None)]))
  {
    hide DbOk, Alone, SubjectOf, TenantOf, TenantByPublicId, TrimSpace, InvitationPublicIdTaken, TokenTaken;
    AnswersExactly(c, now, CreateTenantInvitation(p, role, displayName, id, newPublicId, token), ctx, db);
    NameGate(displayName);
    NameFinds(db, p);
    if Alone(c, now, CreateTenantInvitation(p, role, displayName, id, newPublicId, token), ctx, db).reply == Success {
      assert Administrates(ctx, p, db, TenantByPublicId(db, p).value);
    }
  }

  /** Pending, and its claim over. */
  predicate Lapsed(row: Tenant, now: int) { row.ownership == PendingOwner && row.expiresAt.Some? && row.expiresAt.value <= now }

  /** The tenants that the sweep leaves. */
  function Staying(db: Db, now: int): map<Id, Tenant> { map t | t in db.tenants && !Lapsed(db.tenants[t], now) :: db.tenants[t] }

  lemma SweepLeaves(db: Db, now: int)
    requires DbOk(db)
    ensures Sweep(db, now) == db.(tenants := Staying(db, now))
  {
    hide DbOk, Sweep;
    SweepExact(db, now);
    assert Sweep(db, now).tenants == Staying(db, now);
  }

  /** A registration succeeds exactly for a name, a plan and identifiers that no tenant left by the sweep
      has; the tenants are then those that the sweep leaves and the new one, pending, with the hash of its
      token and a claim that runs for the lifetime of claims from now. */
  lemma RegistersExactly(c: Config, now: int, name: string, plan: string, id: Id, p: Id, token: string, ctx: Ctx, db: Db)
    requires DbOk(db)
    ensures var a := Alone(c, now, StartTenantRegistration(name, plan, id, p, token), ctx, db);
            var stays := Staying(db, now);
            (a.reply == Success <==> name != "" && plan != "" && id !in stays && forall t :: t in stays ==> stays[t].publicId != p) &&
            (a.reply == Success ==>
               a.db == db.(tenants := stays[id := Tenant(p, name, plan, PendingOwner, None, Some(c.sha(token)),
                                                         Some(now + c.claimTtl), false)]))
  {
    hide DbOk, Alone, Sweep, TenantByPublicId, Staying;
    AnswersExactly(c, now, StartTenantRegistration(name, plan, id, p, token), ctx, db);
    SweepLeaves(db, now);
  }
}

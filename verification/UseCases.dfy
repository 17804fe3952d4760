/** The writing use cases of the tenant and relation services. */
module UseCases {
  import opened Domain
  import opened Subdomains
  import opened TenantContext
  import opened Tables
  import opened AtomicLaws
  import opened Machine
  import opened Refinement
  import opened Service

  /** writableEvent as a whole: the event, then its tenant. */
  ghost function WritableEventAndTenant(ctx: Ctx, p: Id, db: Db): Result<Id> {
    var e := Machine.WritableEvent(ctx, p, db);
    if e.Err? then e
    else
      var t := Machine.WritableTenant(ctx, db.events[e.value].tenantPublicId, db);
      if t.Err? then Err(t.error) else e
  }

  class Services {
    const db: Database
    const config: Config
    var clock: int

    constructor (db: Database, config: Config, clock: int)
      ensures this.db == db && this.config == config && this.clock == clock
    {
      this.db, this.config, this.clock := db, config, clock;
    }

    ghost predicate Valid()
      reads this, db
    {
      DbOk(db.View())
    }

    /** What the call means, run by itself on the tables as they are. */
    ghost function Meant(call: Call, ctx: Ctx): Answer
      reads this, db
    {
      Alone(config, clock, call, ctx, db.View())
    }

    // ---------------------------------------------------------------- gates and shared steps

    method WritableTenant(ctx: Ctx, p: Id) returns (r: Result<Id>)
      requires Valid()
      ensures r == Machine.WritableTenant(ctx, p, db.View())
    {
      hide TenantOf;
      if p == "" {
        return Err(TenantIDRequired);
      }
      var denied := Ensure(ctx, p);
      if denied.Some? {
        return Err(denied.value);
      }
      var found := db.FindTenantByPublicId(p);
      if found.None? {
        return Err(TenantNotFound);
      }
      var row := db.tenants[found.value];
      if row.ownership != Owned {
        return Err(TenantPendingOwner);
      }
      if row.archived {
        return Err(TenantArchived);
      }
      return Ok(found.value);
    }

    method WritableEvent(ctx: Ctx, p: Id) returns (r: Result<Id>)
      requires Valid()
      ensures r == WritableEventAndTenant(ctx, p, db.View())
    {
      hide TenantOf;
      if p == "" {
        return Err(EventIDRequired);
      }
      var found := db.FindEventByPublicId(p);
      if found.None? {
        return Err(EventNotFound);
      }
      var row := db.events[found.value];
      var denied := Ensure(ctx, row.tenantPublicId);
      if denied.Some? {
        return Err(denied.value);
      }
      if row.status == Archived {
        return Err(EventIsArchived);
      }
      var tenant := WritableTenant(ctx, row.tenantPublicId);
      if tenant.Err? {
        return Err(tenant.error);
      }
      return Ok(found.value);
    }

    /** Authorizer.Require for tenant.write: the caller's current role, read from the table. */
    method RequireTenantWrite(ctx: Ctx, t: Id) returns (err: Option<Error>)
      ensures err == Require(db.View(), t, SubjectOf(ctx))
    {
      hide SubjectOf;
      if SubjectOf(ctx).None? {
        return Some(SubjectMissing);
      }
      var role := db.FindTenantRoleForShare(t, SubjectOf(ctx).value);
      if role.Err? || !Grants(role.value, ScopeTenantWrite) {
        return Some(PermissionDenied);
      }
      return None;
    }

    /** keepAnotherOwner. */
    method KeepAnotherOwner(t: Id, u: Id) returns (err: Option<Error>)
      ensures err == Tables.KeepAnotherOwner(db.View(), t, u)
    {
      var role := db.FindTenantRoleForShare(t, u);
      if role.Err? || role.value != RoleOwner {
        return None;
      }
      var owners := db.CountTenantOwners(t);
      if owners <= 1 {
        return Some(LastOwner);
      }
      return None;
    }

    /** The end of RunInTransaction: an error undoes everything since saved. */
    method Conclude(saved: Db, err: Option<Error>) returns (r: Reply)
      modifies db
      ensures if err.Some? then db.View() == saved && r == Failure(err.value) else db.View() == old(db.View()) && r == Success
    {
      if err.Some? {
        db.Restore(saved);
        return Failure(err.value);
      }
      return Success;
    }

    // ---------------------------------------------------------------- relation use cases

    method AddTenantMember(ctx: Ctx, p: Id, user: Id, role: Role, displayName: string) returns (r: Reply)
      requires Valid()
      modifies db
      ensures Answer(r, db.View()) == old(Meant(Call.AddTenantMember(p, user, role, displayName), ctx))
    {
      hide DbOk, ParseDisplayName, TenantOf, SubjectOf;
      if user == "" {
        return Failure(UserIDRequired);
      }
      if Grantable(role).Some? {
        return Failure(Grantable(role).value);
      }
      var name := ParseDisplayName(displayName);
      if name.Err? {
        return Failure(name.error);
      }
      var tenant := WritableTenant(ctx, p);
      if tenant.Err? {
        return Failure(tenant.error);
      }
      var err := db.AddTenantMember(tenant.value, user, role, name.value);
      return if err.Some? then Failure(err.value) else Success;
    }

    method ChangeTenantRole(ctx: Ctx, p: Id, user: Id, role: Role) returns (r: Reply)
      requires Valid()
      modifies db
      ensures Answer(r, db.View()) == old(Meant(Call.ChangeTenantRole(p, user, role), ctx))
    {
      hide DbOk, TenantOf, SubjectOf, Require, Tables.KeepAnotherOwner;
      if user == "" {
        return Failure(UserIDRequired);
      }
      if Grantable(role).Some? {
        return Failure(Grantable(role).value);
      }
      var tenant := WritableTenant(ctx, p);
      if tenant.Err? {
        return Failure(tenant.error);
      }
      var saved := db.View();
      var err := RequireTenantWrite(ctx, tenant.value);
      if err.None? && role != RoleOwner {
        err := KeepAnotherOwner(tenant.value, user);
      }
      if err.None? {
        err := db.ChangeTenantRole(tenant.value, user, role);
      }
      r := Conclude(saved, err);
    }

    method GrantEventRole(ctx: Ctx, p: Id, user: Id, role: Role) returns (r: Reply)
      requires Valid()
      modifies db
      ensures Answer(r, db.View()) == old(Meant(Call.GrantEventRole(p, user, role), ctx))
    {
      hide DbOk, TenantOf, SubjectOf, Require, ExecChangeRole, ExecRevokeMember, ExecRevokeEventRole, ExecInvite,
           ExecAcceptInvite, ExecRevokeInvite, ExecAddMember, ExecClaim, ExecAdminister, ExecNewEvent, ExecSetStatus;
      if user == "" {
        return Failure(UserIDRequired);
      }
      if Grantable(role).Some? {
        return Failure(Grantable(role).value);
      }
      var event := WritableEvent(ctx, p);
      if event.Err? {
        return Failure(event.error);
      }
      var saved := db.View();
      var err := GrantWithin(ctx, event.value, user, role);
      r := Conclude(saved, err);
    }

    /** The transaction of GrantEventRole. */
    method GrantWithin(ctx: Ctx, e: Id, user: Id, role: Role) returns (err: Option<Error>)
      requires Valid() && Grantable(role).None? && e in db.events
      modifies db
      ensures var o := ExecGrantRole(old(db.View()), old(db.events)[e].tenantId, SubjectOf(ctx), e, user, role);
              if o.Refused? then err == Some(o.error) else err == None && db.View() == o.db
    {
      hide DbOk, SubjectOf, Require;
      err := RequireTenantWrite(ctx, db.events[e].tenantId);
      if err.Some? {
        return;
      }
      if RoleKey(e, user) in db.eventRoles { RoleHome(db.View(), RoleKey(e, user)); }
      err := db.GrantEventRole(e, user, role);
    }

    method RevokeRole(ctx: Ctx, user: Id, p: Id, e: Id) returns (r: Reply)
      requires Valid()
      modifies db
      ensures Answer(r, db.View()) == old(Meant(Call.RevokeRole(user, p, e), ctx))
    {
      hide DbOk, TenantOf, SubjectOf, Require, Tables.KeepAnotherOwner, WithoutMember, ExecChangeRole, ExecGrantRole,
           ExecInvite, ExecAcceptInvite, ExecRevokeInvite, ExecAddMember, ExecClaim, ExecAdminister, ExecNewEvent,
           ExecSetStatus, ParseDisplayName, ValidSubdomain, VerifyOwnership, Machine.WritableTenant;
      if user == "" {
        return Failure(UserIDRequired);
      }
      if p != "" && e != "" {
        return Failure(ScopeAmbiguous);
      }
      var saved := db.View();
      if p != "" {
        var tenant := WritableTenant(ctx, p);
        if tenant.Err? {
          return Failure(tenant.error);
        }
        var err := RevokeMemberWithin(ctx, tenant.value, user);
        r := Conclude(saved, err);
      } else if e != "" {
        var event := WritableEvent(ctx, e);
        if event.Err? {
          return Failure(event.error);
        }
        var err := RequireTenantWrite(ctx, db.events[event.value].tenantId);
        if err.None? {
          err := db.RevokeEventRole(event.value, user);
        }
        r := Conclude(saved, err);
      } else {
        return Failure(ScopeRequired);
      }
    }

    /** The transaction of RevokeRole for a tenant. */
    method RevokeMemberWithin(ctx: Ctx, t: Id, user: Id) returns (err: Option<Error>)
      modifies db
      ensures var o := ExecRevokeMember(old(db.View()), t, SubjectOf(ctx), user);
              if o.Refused? then err == Some(o.error) else err == None && db.View() == o.db
    {
      hide SubjectOf, Require, Tables.KeepAnotherOwner, WithoutMember;
      err := RequireTenantWrite(ctx, t);
      if err.None? {
        err := KeepAnotherOwner(t, user);
      }
      if err.None? {
        err := db.RevokeTenantMembership(t, user);
      }
    }

    method CreateTenantInvitation(ctx: Ctx, p: Id, role: Role, displayName: string, newId: Id, newPublicId: Id,
        token: string) returns (r: Reply)
      requires Valid()
      modifies db
      ensures Answer(r, db.View()) == old(Meant(Call.CreateTenantInvitation(p, role, displayName, newId, newPublicId, token), ctx))
    {
      hide DbOk, ParseDisplayName, TenantOf, SubjectOf, Require, ExecChangeRole, ExecRevokeMember, ExecGrantRole,
           ExecRevokeEventRole, ExecAcceptInvite, ExecRevokeInvite, ExecAddMember, ExecClaim, ExecAdminister,
           ExecNewEvent, ExecSetStatus, ValidSubdomain, VerifyOwnership, Machine.WritableEvent,
           Machine.WritableTenant;
      if Invitable(role).Some? {
        return Failure(Invitable(role).value);
      }
      var name := ParseDisplayName(displayName);
      if name.Err? {
        return Failure(name.error);
      }
      var tenant := WritableTenant(ctx, p);
      if tenant.Err? {
        return Failure(tenant.error);
      }
      var row := Invitation(newPublicId, tenant.value, role, name.value, config.sha(token), clock + config.invitationTtl, None, None);
      var saved := db.View();
      var err := RequireTenantWrite(ctx, tenant.value);
      if err.None? {
        err := db.CreateInvitation(newId, row);
      }
      r := Conclude(saved, err);
    }

    method RevokeTenantInvitation(ctx: Ctx, p: Id, invitation: Id) returns (r: Reply)
      requires Valid()
      modifies db
      ensures Answer(r, db.View()) == old(Meant(Call.RevokeTenantInvitation(p, invitation), ctx))
    {
      hide TenantOf, SubjectOf, DbOk, ExecChangeRole, ExecRevokeMember, ExecGrantRole, ExecRevokeEventRole,
           ExecInvite, ExecAcceptInvite, ExecAddMember, ExecClaim, ExecAdminister, ExecNewEvent, ExecSetStatus,
           ParseDisplayName, ValidSubdomain, VerifyOwnership, Machine.WritableEvent, Ensure, Machine.WritableTenant;
      KeysAreUnique(db.View());
      hide UniqueTenants, UniqueEvents, UniqueInvitations;
      if invitation == "" {
        return Failure(InvitationIDRequired);
      }
      var tenant := WritableTenant(ctx, p);
      if tenant.Err? {
        return Failure(tenant.error);
      }
      var saved := db.View();
      var err: Option<Error> := None;
      var found := db.FindInvitation(tenant.value, invitation);
      if found.None? {
        err := Some(InvitationNotFound);
      } else if !InvitationOpen(db.invitations[found.value], clock) {
        err := Some(InvitationNotPending);
      } else {
        err := db.MarkInvitationRevoked(found.value, clock);
      }
      r := Conclude(saved, err);
    }

    method AcceptTenantInvitation(ctx: Ctx, p: Id, token: string) returns (r: Reply)
      requires Valid()
      modifies db
      ensures Answer(r, db.View()) == old(Meant(Call.AcceptTenantInvitation(p, token), ctx))
    {
      hide TenantOf, SubjectOf, DbOk;
      KeysAreUnique(db.View());
      hide UniqueTenants, UniqueEvents, UniqueInvitations;
      if p == "" {
        return Failure(TenantIDRequired);
      }
      if token == "" {
        return Failure(InvitationTokenRequired);
      }
      if SubjectOf(ctx).None? {
        return Failure(SubjectMissing);
      }
      var subject := SubjectOf(ctx).value;
      var tenant := db.FindTenantByPublicId(p);
      if tenant.None? {
        return Failure(TenantNotFound);
      }
      var foreign := VerifyOwnership(ctx, p);
      if foreign.Some? {
        return Failure(foreign.value);
      }
      var t, seen := tenant.value, db.tenants[tenant.value];
      var saved := db.View();
      var err := AcceptWithin(t, seen.ownership == Owned, seen.archived, subject, config.sha(token));
      r := Conclude(saved, err);
    }

    /** The transaction of AcceptTenantInvitation; the tenant was read before it. */
    method AcceptWithin(t: Id, owned: bool, archived: bool, subject: Id, h: Hash) returns (err: Option<Error>)
      requires Valid()
      modifies db
      ensures var o := ExecAcceptInvite(old(db.View()), AcceptInvite(t, owned, archived, subject, h), clock);
              if o.Refused? then err == Some(o.error) else err == None && db.View() == o.db
    {
      hide DbOk;
      KeysAreUnique(db.View());
      hide UniqueTenants, UniqueEvents, UniqueInvitations;
      var found := db.FindInvitationByToken(t, h);
      if found.None? || !InvitationOpen(db.invitations[found.value], clock) {
        return Some(InvitationRejected);
      }
      if !owned {
        return Some(TenantPendingOwner);
      }
      if archived {
        return Some(TenantArchived);
      }
      var invitation := db.invitations[found.value];
      InvitationHome(db.View(), found.value);
      err := db.AddTenantMember(t, subject, invitation.role, invitation.name);
      if err.Some? {
        return;
      }
      err := db.MarkInvitationAccepted(found.value, subject, clock);
    }

    // ---------------------------------------------------------------- tenant use cases

    method StartTenantRegistration(ctx: Ctx, name: string, plan: string, newId: Id, newPublicId: Id,
        token: string) returns (r: Reply)
      requires Valid()
      modifies db
      ensures Answer(r, db.View()) == old(Meant(Call.StartTenantRegistration(name, plan, newId, newPublicId, token), ctx))
    {
      hide DbOk, Sweep, Forward, Agree;
      if name == "" {
        return Failure(TenantNameRequired);
      }
      if plan == "" {
        return Failure(ContractPlanRequired);
      }
      var now := clock;
      SweepExact(db.View(), now);
      SweptUnique(db.View(), now);
      db.DeleteExpiredPendingTenants(now);
      var row := Tenant(newPublicId, name, plan, PendingOwner, None, Some(config.sha(token)), Some(now + config.claimTtl), false);
      var err := db.CreatePendingTenant(newId, row);
      return if err.Some? then Failure(err.value) else Success;
    }

    method ClaimTenantOwnership(ctx: Ctx, p: Id, token: string, subdomain: string, displayName: string) returns (r: Reply)
      requires Valid()
      modifies db
      ensures Answer(r, db.View()) == old(Meant(Call.ClaimTenantOwnership(p, token, subdomain, displayName), ctx))
    {
      hide ParseDisplayName, TenantOf, SubjectOf, ValidSubdomain, TenantRows, EventRows, MemberRows, RoleRows,
           InvitationRows, EventRefs, MemberRefs, RoleRefs, InvitationRefs, OwnersOk;
      if p == "" {
        return Failure(TenantIDRequired);
      }
      if token == "" {
        return Failure(ClaimTokenRequired);
      }
      var parsed := ParseSubdomain(subdomain);
      if parsed.Invalid? {
        return Failure(InvalidSubdomain);
      }
      var name := ParseDisplayName(displayName);
      if name.Err? {
        return Failure(name.error);
      }
      if SubjectOf(ctx).None? {
        return Failure(SubjectMissing);
      }
      var saved := db.View();
      var err := ClaimWithin(ctx, p, token, parsed.value, SubjectOf(ctx).value, name.value);
      r := Conclude(saved, err);
    }

    /** The transaction of ClaimTenantOwnership. */
    method ClaimWithin(ctx: Ctx, p: Id, token: string, subdomain: string, subject: Id, name: string) returns (err: Option<Error>)
      requires Valid()
      modifies db
      ensures var o := ExecClaim(old(db.View()), ClaimTenant(p, TenantOf(ctx), config.sha(token), subdomain, subject, name), clock);
              if o.Refused? then err == Some(o.error) else err == None && db.View() == o.db
    {
      hide TenantOf, EventRows, MemberRows, RoleRows, InvitationRows, EventRefs, MemberRefs, RoleRefs,
           InvitationRefs, OwnersOk, TenantRows;
      var found := db.FindTenantByPublicId(p);
      if found.None? {
        return Some(TenantNotFound);
      }
      var t, row := found.value, db.tenants[found.value];
      BoundaryChecks(ctx, p, p, None);
      var foreign := VerifyOwnership(ctx, p);
      if foreign.Some? {
        return foreign;
      }
      var tokenMatches := row.tokenHash == Some(config.sha(token));
      var pending := row.ownership == PendingOwner;
      var expired := row.expiresAt.None? || ClaimExpired(row.expiresAt.value, clock);
      if !pending || expired || !tokenMatches {
        return Some(ClaimRejected);
      }
      var owned := ClaimOwnership(row, subdomain);
      err := ErrorOf(owned);
      if err.Some? {
        return;
      }
      err := db.AddTenantMember(t, subject, RoleOwner, name);
      if err.Some? {
        return;
      }
      err := db.MarkTenantOwned(t, owned.value);
    }

    /** administerTenant, with the mutation of a contract change or of an archival. */
    method AdministerTenant(ctx: Ctx, p: Id, plan: Option<string>) returns (r: Reply)
      requires Valid() && TenantOf(ctx) == Some(p)
      modifies db
      ensures Answer(r, db.View()) == old(Finish(ExecAdminister(db.View(), p, SubjectOf(ctx), plan), db.View()))
    {
      hide TenantOf, SubjectOf, EventRows, MemberRows, RoleRows, InvitationRows, EventRefs, MemberRefs, RoleRefs,
           InvitationRefs, OwnersOk, TenantRows, Require;
      var saved := db.View();
      var err: Option<Error> := None;
      var found := db.FindTenantByPublicId(p);
      if found.None? {
        err := Some(TenantNotFound);
      } else {
        var t, row := found.value, db.tenants[found.value];
        if row.ownership != Owned {
          err := Some(TenantPendingOwner);
        } else if row.archived {
          err := Some(TenantArchived);
        } else {
          err := RequireTenantWrite(ctx, t);
          if err.None? {
            var updated := if plan.Some? then Ok(row.(plan := plan.value)) else ArchiveTenantRow(row);
            err := ErrorOf(updated);
            if err.None? {
              err := db.UpdateTenant(t, updated.value);
            }
          }
        }
      }
      r := Conclude(saved, err);
    }

    method ChangeTenantContract(ctx: Ctx, p: Id, plan: string) returns (r: Reply)
      requires Valid()
      modifies db
      ensures Answer(r, db.View()) == old(Meant(Call.ChangeTenantContract(p, plan), ctx))
    {
      hide DbOk, TenantOf, SubjectOf, Require;
      if plan == "" {
        return Failure(ContractPlanRequired);
      }
      if p == "" {
        return Failure(TenantIDRequired);
      }
      BoundaryChecks(ctx, p, p, None);
      var denied := Ensure(ctx, p);
      if denied.Some? {
        return Failure(denied.value);
      }
      r := AdministerTenant(ctx, p, Some(plan));
    }

    method ArchiveTenant(ctx: Ctx, p: Id) returns (r: Reply)
      requires Valid()
      modifies db
      ensures Answer(r, db.View()) == old(Meant(ArchiveTenantCall(p), ctx))
    {
      hide DbOk, TenantOf, SubjectOf, Require;
      if p == "" {
        return Failure(TenantIDRequired);
      }
      BoundaryChecks(ctx, p, p, None);
      var denied := Ensure(ctx, p);
      if denied.Some? {
        return Failure(denied.value);
      }
      r := AdministerTenant(ctx, p, None);
    }

    method CreateEvent(ctx: Ctx, p: Id, name: string, newId: Id, newPublicId: Id) returns (r: Reply)
      requires Valid()
      modifies db
      ensures Answer(r, db.View()) == old(Meant(Call.CreateEvent(p, name, newId, newPublicId), ctx))
    {
      hide DbOk, TenantOf, SubjectOf;
      if name == "" {
        return Failure(EventNameRequired);
      }
      var tenant := WritableTenant(ctx, p);
      if tenant.Err? {
        return Failure(tenant.error);
      }
      if SubjectOf(ctx).None? {
        return Failure(SubjectMissing);
      }
      var t, subject := tenant.value, SubjectOf(ctx).value;
      var event := Event(newPublicId, t, p, name, Draft);
      var saved := db.View();
      var err := CreateWithin(t, subject, newId, event);
      r := Conclude(saved, err);
    }

    /** The transaction of CreateEvent. */
    method CreateWithin(t: Id, subject: Id, id: Id, event: Event) returns (err: Option<Error>)
      requires Valid() && t in db.tenants && event.tenantId == t
      modifies db
      ensures var o := ExecNewEvent(old(db.View()), NewEvent(t, subject, id, event), !old(db.tenants)[t].archived);
              if o.Refused? then err == Some(o.error) else err == None && db.View() == o.db
    {
      hide DbOk;
      var role := db.FindTenantRoleForShare(t, subject);
      if role.Err? {
        return Some(CreatorNotMember);
      }
      if RoleKey(id, subject) in db.eventRoles { RoleHome(db.View(), RoleKey(id, subject)); }
      err := db.CreateEvent(id, event);
      if err.Some? {
        return;
      }
      err := db.GrantEventRole(id, subject, role.value);
    }

    method TransitionEventStatus(ctx: Ctx, p: Id, to: EventStatus) returns (r: Reply)
      requires Valid()
      modifies db
      ensures Answer(r, db.View()) == old(Meant(Call.TransitionEventStatus(p, to), ctx))
    {
      hide TenantOf, SubjectOf, DbOk, ExecChangeRole, ExecRevokeMember, ExecGrantRole, ExecRevokeEventRole,
           ExecInvite, ExecAcceptInvite, ExecRevokeInvite, ExecAddMember, ExecClaim, ExecAdminister, ExecNewEvent,
           ParseDisplayName, ValidSubdomain, VerifyOwnership, Machine.WritableEvent, Machine.WritableTenant,
           CanTransition;
      KeysAreUnique(db.View());
      hide UniqueTenants, UniqueEvents, UniqueInvitations;
      if p == "" {
        return Failure(EventIDRequired);
      }
      if to == StatusUnspecified {
        return Failure(EventStatusRequired);
      }
      var found := db.FindEventByPublicId(p);
      if found.None? {
        return Failure(EventNotFound);
      }
      var e, row := found.value, db.events[found.value];
      var denied := Ensure(ctx, row.tenantPublicId);
      if denied.Some? {
        return Failure(denied.value);
      }
      if !CanTransition(row.status, to) {
        return Failure(InvalidTransition);
      }
      EventHome(db.View(), e);
      var err := db.UpdateEvent(e, row.name, to);
      return if err.Some? then Failure(err.value) else Success;
    }
  }

  lemma KeysAreUnique(db: Db)
    requires DbOk(db)
    ensures UniqueTenants(db.tenants) && UniqueEvents(db.events) && UniqueInvitations(db.invitations)
  {
  }

  lemma SweptUnique(db: Db, now: int)
    requires DbOk(db)
    ensures UniqueTenants(Sweep(db, now).tenants)
  {
    SweepExact(db, now);
  }

  lemma StatusWrite(x: Txn, o: Obs, db: Db, e: Id)
    requires e in db.events && Exec(x, o, db).Committed?
    ensures var es := Exec(x, o, db).db.events;
            e in es && es[e].status == if x.SetStatus? && x.event == e then x.status else db.events[e].status
  {
    hide InvitationByToken, InvitationByPublicId, TenantByPublicId;
  }

  lemma GateAllows(c: Config, now: int, call: Call, ctx: Ctx, db: Db)
    ensures var g := Gate(c, now, call, ctx, db);
            g.Begin? && g.txn.SetStatus? ==> g.txn.event in db.events && CanTransition(db.events[g.txn.event].status, g.txn.status)
  {
    hide ParseDisplayName, ValidSubdomain, TenantOf, SubjectOf, Machine.WritableTenant, Machine.WritableEvent,
         TenantByPublicId, CanTransition;
  }

  lemma EventGateSetsNoStatus(call: Call, ctx: Ctx, e: Id, row: Event, db: Db)
    ensures var g := GateEventTenant(call, ctx, e, row, db); g.Begin? ==> !g.txn.SetStatus?
  {
    hide TenantOf, SubjectOf, Machine.WritableTenant;
  }

  /** Run one at a time, an event changes its status along the eight transitions only. */
  lemma TransitionsAlone(c: Config, now: int, call: Call, ctx: Ctx, db: Db, e: Id)
    requires DbOk(db) && e in db.events
    ensures var db' := Alone(c, now, call, ctx, db).db;
            e in db'.events && (db'.events[e].status == db.events[e].status || CanTransition(db.events[e].status, db'.events[e].status))
  {
    hide DbOk, Gate, GateEventTenant, Exec, Sweep, Forward, Agree, CanTransition, ReadsOpen;
    SweepExact(db, now);
    GateAllows(c, now, call, ctx, db);
    match Gate(c, now, call, ctx, db)
    case Begin(x) =>
      if Exec(x, Obs(now, ReadsOpen(x, db)), db).Committed? { StatusWrite(x, Obs(now, ReadsOpen(x, db)), db, e); }
    case LoadTenantOf(loaded, row) =>
      EventGateSetsNoStatus(call, ctx, loaded, row, db);
      var g := GateEventTenant(call, ctx, loaded, row, db);
      if g.Begin? && Exec(g.txn, Obs(now, ReadsOpen(g.txn, db)), db).Committed? {
        StatusWrite(g.txn, Obs(now, ReadsOpen(g.txn, db)), db, e);
      }
    case _ =>
  }
}

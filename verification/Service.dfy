/** The use cases as the code steps through them: gates, then a transaction over mutable tables that is
    rolled back when a step fails. Each is proved to do, run by itself, what its one-at-a-time
    meaning says. */
module Service {
  import opened Domain
  import opened Subdomains
  import opened TenantContext
  import opened Tables
  import opened AtomicLaws
  import opened Machine
  import opened Refinement
  import opened Invariant
  import opened Schedules

  // ---------------------------------------------------------------- one call, run by itself

  /** Whether the statement that guards on it reads the tenant as not archived. */
  predicate ReadsOpen(x: Txn, db: Db) {
    match x
    case NewEvent(t, _, _, _) => t in db.tenants && !db.tenants[t].archived
    case SetStatus(e, _, _) => e in db.events && db.events[e].tenantId in db.tenants && !db.tenants[db.events[e].tenantId].archived
    case _ => true
  }

  datatype Answer = Answer(reply: Reply, db: Db)

  ghost function Finish(o: Outcome, db: Db): Answer {
    match o
    case Committed(db') => Answer(Success, db')
    case Refused(e) => Answer(Failure(e), db)
  }

  ghost function FinishTxn(x: Txn, now: int, db: Db): Answer { Finish(Exec(x, Obs(now, ReadsOpen(x, db)), db), db) }

  /** The reply and the tables after a call on its own: its gates, then its transaction. */
  ghost function Alone(c: Config, now: int, call: Call, ctx: Ctx, db: Db): Answer {
    match Gate(c, now, call, ctx, db)
    case Refuse(e) => Answer(Failure(e), db)
    case SweepFirst =>
      if call.StartTenantRegistration?
      then Finish(ExecRegister(Sweep(db, now), call.newId, NewTenantRow(c, call, now)), Sweep(db, now))
      else Answer(Failure(Internal), db)
    case Begin(x) => FinishTxn(x, now, db)
    case LoadTenantOf(e, row) =>
      match GateEventTenant(call, ctx, e, row, db)
      case Refuse(error) => Answer(Failure(error), db)
      case Begin(x) => FinishTxn(x, now, db)
      case _ => Answer(Failure(Internal), db)
  }

  lemma FinishTxnKeeps(x: Txn, now: int, db: Db)
    requires DbOk(db) && ParamsOk(db, x)
    ensures DbOk(FinishTxn(x, now, db).db)
  {
    hide DbOk, ParamsOk, Exec, Forward, Agree, TargetOf;
    var o := Obs(now, ReadsOpen(x, db));
    if Exec(x, o, db).Committed? { ExecKeeps(x, o, db); }
  }

  /** Whatever the call, every constraint holds afterwards. */
  lemma AloneKeeps(c: Config, now: int, call: Call, ctx: Ctx, db: Db)
    requires DbOk(db)
    ensures DbOk(Alone(c, now, call, ctx, db).db)
  {
    hide DbOk, ParamsOk, Gate, GateEventTenant, FinishTxn, Sweep, ExecRegister, Forward, Agree;
    GateEstablishes(c, now, call, ctx, db);
    match Gate(c, now, call, ctx, db)
    case Refuse(_) =>
    case SweepFirst =>
      SweepExact(db, now);
      if call.StartTenantRegistration? && ExecRegister(Sweep(db, now), call.newId, NewTenantRow(c, call, now)).Committed? {
        RegisterKeeps(Sweep(db, now), call.newId, NewTenantRow(c, call, now));
      }
    case Begin(x) => FinishTxnKeeps(x, now, db);
    case LoadTenantOf(e, row) =>
      GateEventEstablishes(call, ctx, e, row, db);
      match GateEventTenant(call, ctx, e, row, db) {
        case Begin(x) => FinishTxnKeeps(x, now, db);
        case _ =>
      }
  }

  // ---------------------------------------------------------------- the tables and the repositories

  function ErrorOf<T>(r: Result<T>): Option<Error> { if r.Err? then Some(r.error) else None }

  class Database {
    var tenants: map<Id, Tenant>
    var events: map<Id, Event>
    var members: map<MemberKey, Member>
    var eventRoles: map<RoleKey, EventRole>
    var invitations: map<Id, Invitation>

    function View(): Db
      reads this
    {
      Db(tenants, events, members, eventRoles, invitations)
    }

    constructor ()
      ensures View() == EmptyDb
    {
      tenants, events, members, eventRoles, invitations := map[], map[], map[], map[], map[];
    }

    /** ROLLBACK. */
    method Restore(saved: Db)
      modifies this
      ensures View() == saved
    {
      tenants, events, members, eventRoles, invitations :=
        saved.tenants, saved.events, saved.members, saved.eventRoles, saved.invitations;
    }

    // tenants

    method FindTenantByPublicId(p: Id) returns (r: Option<Id>)
      requires UniqueTenants(tenants)
      ensures r == TenantByPublicId(View(), p)
    {
      if exists id :: id in tenants && tenants[id].publicId == p {
        var id :| id in tenants && tenants[id].publicId == p;
        return Some(id);
      }
      return None;
    }

    method CreatePendingTenant(id: Id, row: Tenant) returns (err: Option<Error>)
      requires UniqueTenants(tenants)
      modifies this`tenants
      ensures if row.ownership != PendingOwner then err == Some(TenantNotPendingOwner) && View() == old(View())
              else match ExecRegister(old(View()), id, row)
                   case Refused(e) => err == Some(e) && View() == old(View())
                   case Committed(db') => err == None && View() == db'
    {
      if row.ownership != PendingOwner {
        return Some(TenantNotPendingOwner);
      }
      if id in tenants {
        return Some(Internal);
      }
      var taken := FindTenantByPublicId(row.publicId);
      if taken.Some? {
        return Some(TenantPublicIDExists);
      }
      tenants := tenants[id := row];
      return None;
    }

    /** The delete, and the cascades of the foreign keys. */
    method DeleteExpiredPendingTenants(now: int)
      modifies this
      ensures View() == Sweep(old(View()), now)
    {
      hide Expired;
      var gone := Expired(View(), now);
      tenants := tenants - gone;
      events := EventsOutside(events, gone);
      members := MembersOutside(members, gone);
      eventRoles := RolesOutside(eventRoles, gone);
      invitations := InvitationsOutside(invitations, gone);
    }

    method MarkTenantOwned(t: Id, owned: Tenant) returns (err: Option<Error>)
      requires owned.subdomain.Some?
      modifies this`tenants
      ensures if owned.ownership != Owned then err == Some(TenantNotPendingOwner) && View() == old(View())
              else if SubdomainTaken(old(View()), owned.subdomain.value) then err == Some(SubdomainExists) && View() == old(View())
              else if t !in old(tenants) || old(tenants)[t].ownership != PendingOwner then
                err == Some(TenantNotPendingOwner) && View() == old(View())
              else err == None && View() == Apply(SetOwned(t, owned.subdomain.value), old(View()))
    {
      if owned.ownership != Owned {
        return Some(TenantNotPendingOwner);
      }
      if exists id :: id in tenants && tenants[id].subdomain == owned.subdomain {
        return Some(SubdomainExists);
      }
      if t !in tenants || tenants[t].ownership != PendingOwner {
        return Some(TenantNotPendingOwner);
      }
      tenants := tenants[t := tenants[t].(ownership := Owned, subdomain := owned.subdomain, tokenHash := None, expiresAt := None)];
      return None;
    }

    method UpdateTenant(t: Id, updated: Tenant) returns (err: Option<Error>)
      modifies this`tenants
      ensures if t in old(tenants) then err == None && View() == Apply(SetAdmin(t, updated.plan, updated.archived), old(View()))
              else err == Some(TenantNotFound) && View() == old(View())
    {
      if t !in tenants {
        return Some(TenantNotFound);
      }
      tenants := tenants[t := tenants[t].(plan := updated.plan, archived := updated.archived)];
      return None;
    }

    // events

    method FindEventByPublicId(p: Id) returns (r: Option<Id>)
      requires UniqueEvents(events)
      ensures r == EventByPublicId(View(), p)
    {
      if exists id :: id in events && events[id].publicId == p {
        var id :| id in events && events[id].publicId == p;
        return Some(id);
      }
      return None;
    }

    /** The guarded insert, and the look at why it reached no row. */
    method CreateEvent(id: Id, event: Event) returns (err: Option<Error>)
      modifies this`events
      ensures if event.tenantId !in tenants then err == Some(TenantNotFound) && View() == old(View())
              else if tenants[event.tenantId].archived then err == Some(TenantArchived) && View() == old(View())
              else if id in old(events) then err == Some(Internal) && View() == old(View())
              else if EventPublicIdTaken(old(View()), event.publicId) then err == Some(EventPublicIDExists) && View() == old(View())
              else err == None && View() == Apply(PutEvent(id, event), old(View()))
    {
      if event.tenantId in tenants && !tenants[event.tenantId].archived {
        if id in events {
          return Some(Internal);
        }
        if exists e :: e in events && events[e].publicId == event.publicId {
          return Some(EventPublicIDExists);
        }
        events := events[id := event];
        return None;
      }
      if event.tenantId !in tenants {
        return Some(TenantNotFound);
      }
      return Some(TenantArchived);
    }

    method UpdateEvent(e: Id, name: string, status: EventStatus) returns (err: Option<Error>)
      requires e in events ==> events[e].tenantId in tenants
      modifies this`events
      ensures if e !in old(events) then err == Some(EventNotFound) && View() == old(View())
              else if tenants[old(events)[e].tenantId].archived then err == Some(TenantArchived) && View() == old(View())
              else err == None && View() == Apply(SetEvent(e, name, status), old(View()))
    {
      if e in events && !tenants[events[e].tenantId].archived {
        events := events[e := events[e].(name := name, status := status)];
        return None;
      }
      if e !in events {
        return Some(EventNotFound);
      }
      return Some(TenantArchived);
    }

    // memberships and event roles

    method FindMembership(t: Id, u: Id) returns (r: Result<Member>)
      ensures r == if MemberKey(t, u) in members then Ok(members[MemberKey(t, u)]) else Err(MembershipNotFound)
    {
      if MemberKey(t, u) !in members {
        return Err(MembershipNotFound);
      }
      return Ok(members[MemberKey(t, u)]);
    }

    /** The insert, and the read-back; with nobody in between, the membership is found. */
    method AddTenantMember(t: Id, u: Id, role: Role, name: string) returns (err: Option<Error>)
      modifies this`members
      ensures var k := MemberKey(t, u);
              if Grantable(role).Some? then err == Grantable(role) && View() == old(View())
              else if k in old(members) then err == Some(MembershipAlreadyExists) && View() == old(View())
              else if t !in tenants then err == Some(TenantNotFound) && View() == old(View())
              else err == None && View() == Apply(PutMember(k, Member(role, name)), old(View()))
    {
      if Grantable(role).Some? {
        return Grantable(role);
      }
      if MemberKey(t, u) in members {
        return Some(MembershipAlreadyExists);
      }
      if t !in tenants {
        return Some(TenantNotFound);
      }
      members := members[MemberKey(t, u) := Member(role, name)];
      var written := FindMembership(t, u);
      return ErrorOf(written);
    }

    method ChangeTenantRole(t: Id, u: Id, role: Role) returns (err: Option<Error>)
      modifies this`members
      ensures var k := MemberKey(t, u);
              if Grantable(role).Some? then err == Grantable(role) && View() == old(View())
              else if k !in old(members) then err == Some(MembershipNotFound) && View() == old(View())
              else err == None && View() == Apply(SetRole(k, role), old(View()))
    {
      if Grantable(role).Some? {
        return Grantable(role);
      }
      var k := MemberKey(t, u);
      if k !in members {
        return Some(MembershipNotFound);
      }
      members := members[k := members[k].(role := role)];
      var written := FindMembership(t, u);
      return ErrorOf(written);
    }

    method GrantEventRole(e: Id, u: Id, role: Role) returns (err: Option<Error>)
      requires RoleKey(e, u) in eventRoles ==> MemberKey(eventRoles[RoleKey(e, u)].tenantId, u) in members
      modifies this`eventRoles
      ensures if Grantable(role).Some? then err == Grantable(role) && View() == old(View())
              else if e !in events then err == Some(EventNotFound) && View() == old(View())
              else if RoleKey(e, u) !in old(eventRoles) && MemberKey(events[e].tenantId, u) !in members
              then err == Some(TenantMembershipRequired) && View() == old(View())
              else err == None &&
                   View() == Apply(PutRole(RoleKey(e, u),
                       EventRole(if RoleKey(e, u) in old(eventRoles) then old(eventRoles)[RoleKey(e, u)].tenantId
                                                                    else events[e].tenantId, role)), old(View()))
    {
      if Grantable(role).Some? {
        return Grantable(role);
      }
      if e !in events {
        return Some(EventNotFound);
      }
      var k := RoleKey(e, u);
      if k in eventRoles {
        eventRoles := eventRoles[k := eventRoles[k].(role := role)];
        var written := FindMembership(eventRoles[k].tenantId, u);
        return ErrorOf(written);
      }
      if MemberKey(events[e].tenantId, u) !in members {
        return Some(TenantMembershipRequired);
      }
      eventRoles := eventRoles[k := EventRole(events[e].tenantId, role)];
      var written := FindMembership(events[e].tenantId, u);
      return ErrorOf(written);
    }

    method RevokeTenantMembership(t: Id, u: Id) returns (err: Option<Error>)
      modifies this`members, this`eventRoles
      ensures if MemberKey(t, u) !in old(members) then err == Some(MembershipNotFound) && View() == old(View())
              else err == None && View() == WithoutMember(old(View()), t, u)
    {
      if MemberKey(t, u) !in members {
        return Some(MembershipNotFound);
      }
      members := members - {MemberKey(t, u)};
      eventRoles := map k | k in eventRoles && !(k.user == u && eventRoles[k].tenantId == t) :: eventRoles[k];
      return None;
    }

    method RevokeEventRole(e: Id, u: Id) returns (err: Option<Error>)
      modifies this`eventRoles
      ensures if RoleKey(e, u) !in old(eventRoles) then err == Some(EventRoleNotFound) && View() == old(View())
              else err == None && View() == Apply(DropRole(RoleKey(e, u)), old(View()))
    {
      if RoleKey(e, u) !in eventRoles {
        return Some(EventRoleNotFound);
      }
      eventRoles := eventRoles - {RoleKey(e, u)};
      return None;
    }

    method FindTenantRoleForShare(t: Id, u: Id) returns (r: Result<Role>)
      ensures r == if MemberKey(t, u) in members then Ok(members[MemberKey(t, u)].role) else Err(MembershipNotFound)
    {
      if MemberKey(t, u) !in members {
        return Err(MembershipNotFound);
      }
      return Ok(members[MemberKey(t, u)].role);
    }

    method CountTenantOwners(t: Id) returns (n: nat)
      ensures n == |Owners(View(), t)|
    {
      return |set k | k in members && k.tenant == t && members[k].role == RoleOwner :: k.user|;
    }

    // invitations

    method CreateInvitation(id: Id, row: Invitation) returns (err: Option<Error>)
      modifies this`invitations
      ensures if id in old(invitations) then err == Some(Internal) && View() == old(View())
              else if InvitationPublicIdTaken(old(View()), row.publicId) then err == Some(InvitationPublicIDExists) && View() == old(View())
              else if TokenTaken(old(View()), row.tokenHash) || row.tenantId !in tenants then err == Some(Internal) && View() == old(View())
              else err == None && View() == Apply(PutInvitation(id, row), old(View()))
    {
      if id in invitations {
        return Some(Internal);
      }
      if exists i :: i in invitations && invitations[i].publicId == row.publicId {
        return Some(InvitationPublicIDExists);
      }
      if row.tenantId !in tenants || exists i :: i in invitations && invitations[i].tokenHash == row.tokenHash {
        return Some(Internal);
      }
      invitations := invitations[id := row];
      return None;
    }

    method FindInvitation(t: Id, p: Id) returns (r: Option<Id>)
      requires UniqueInvitations(invitations)
      ensures r == InvitationByPublicId(View(), t, p)
    {
      if exists id :: id in invitations && invitations[id].tenantId == t && invitations[id].publicId == p {
        var id :| id in invitations && invitations[id].tenantId == t && invitations[id].publicId == p;
        return Some(id);
      }
      return None;
    }

    method FindInvitationByToken(t: Id, h: Hash) returns (r: Option<Id>)
      requires UniqueInvitations(invitations)
      ensures r == InvitationByToken(View(), t, h)
    {
      if exists id :: id in invitations && invitations[id].tenantId == t && invitations[id].tokenHash == h {
        var id :| id in invitations && invitations[id].tenantId == t && invitations[id].tokenHash == h;
        return Some(id);
      }
      return None;
    }

    method MarkInvitationAccepted(id: Id, user: Id, at: int) returns (err: Option<Error>)
      modifies this`invitations
      ensures if id in old(invitations) then err == None && View() == Apply(SetAccepted(id, Acceptance(at, user)), old(View()))
              else err == Some(InvitationNotFound) && View() == old(View())
    {
      if id !in invitations {
        return Some(InvitationNotFound);
      }
      invitations := invitations[id := invitations[id].(accepted := Some(Acceptance(at, user)))];
      return None;
    }

    method MarkInvitationRevoked(id: Id, at: int) returns (err: Option<Error>)
      modifies this`invitations
      ensures if id in old(invitations) then err == None && View() == Apply(SetRevoked(id, at), old(View()))
              else err == Some(InvitationNotFound) && View() == old(View())
    {
      if id !in invitations {
        return Some(InvitationNotFound);
      }
      invitations := invitations[id := invitations[id].(revoked := Some(at))];
      return None;
    }
  }
}

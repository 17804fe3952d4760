/** The schema's CHECK constraints over every run: no write ever violates one, and every stored row
    parses back to the value that was written. */
module SchemaHistory {
  import opened Domain
  import opened Subdomains
  import opened TenantContext
  import opened Tables
  import opened AtomicLaws
  import opened Machine
  import opened Invariant
  import opened Schedules
  import opened Histories
  import opened Rows

  /** The row that a write leaves meets the CHECK constraints of its table. */
  predicate WriteMeetsChecks(w: Write, db: Db) {
    match w
    case PutMember(_, m) => MemberChecks(EncodeMember(m))
    case SetRole(k, r) => k in db.members ==> MemberChecks(EncodeMember(db.members[k].(role := r)))
    case PutRole(_, r) => EventRoleChecks(RoleString(r.role))
    case PutInvitation(_, row) => InvitationChecks(EncodeInvitation(row))
    case SetAccepted(i, a) => i in db.invitations ==> InvitationChecks(EncodeInvitation(db.invitations[i].(accepted := Some(a))))
    case SetRevoked(i, at) => i in db.invitations ==> InvitationChecks(EncodeInvitation(db.invitations[i].(revoked := Some(at))))
    case SetOwned(t, s) =>
      t in db.tenants ==>
        TenantChecks(EncodeTenant(db.tenants[t].(ownership := Owned, subdomain := Some(s), tokenHash := None, expiresAt := None)))
    case SetAdmin(t, plan, archived) => t in db.tenants ==> TenantChecks(EncodeTenant(db.tenants[t].(plan := plan, archived := archived)))
    case _ => true
  }

  /** The same on values. */
  predicate WriteRowOk(w: Write, db: Db) {
    match w
    case PutMember(_, m) => MemberRowOk(m)
    case SetRole(k, r) => k in db.members ==> MemberRowOk(db.members[k].(role := r))
    case PutRole(_, r) => StoredRole(r.role)
    case PutInvitation(_, row) => InvitationRowOk(row)
    case SetAccepted(i, a) => i in db.invitations ==> InvitationRowOk(db.invitations[i].(accepted := Some(a)))
    case SetRevoked(i, at) => i in db.invitations ==> InvitationRowOk(db.invitations[i].(revoked := Some(at)))
    case SetOwned(t, s) =>
      t in db.tenants ==> TenantRowOk(db.tenants[t].(ownership := Owned, subdomain := Some(s), tokenHash := None, expiresAt := None))
    case SetAdmin(t, plan, archived) => t in db.tenants ==> TenantRowOk(db.tenants[t].(plan := plan, archived := archived))
    case _ => true
  }

  lemma RowOkMeetsChecks(w: Write, db: Db)
    requires WriteRowOk(w, db)
    ensures WriteMeetsChecks(w, db)
  {
    hide MemberRowOk, InvitationRowOk, TenantRowOk, MemberChecks, InvitationChecks, TenantChecks, EncodeMember,
         EncodeInvitation, EncodeTenant;
    match w
    case PutMember(_, m) => MemberRowMeetsChecks(m);
    case SetRole(k, r) => if k in db.members { MemberRowMeetsChecks(db.members[k].(role := r)); }
    case PutInvitation(_, row) => InvitationRowMeetsChecks(row);
    case SetAccepted(i, a) => if i in db.invitations { InvitationRowMeetsChecks(db.invitations[i].(accepted := Some(a))); }
    case SetRevoked(i, at) => if i in db.invitations { InvitationRowMeetsChecks(db.invitations[i].(revoked := Some(at))); }
    case SetOwned(t, s) =>
      if t in db.tenants {
        TenantRowMeetsChecks(db.tenants[t].(ownership := Owned, subdomain := Some(s), tokenHash := None, expiresAt := None));
      }
    case SetAdmin(t, plan, archived) => if t in db.tenants { TenantRowMeetsChecks(db.tenants[t].(plan := plan, archived := archived)); }
    case _ =>
  }

  lemma GuardedWritesOk(c: Config, db: Db, x: Txn, st: Stage, seen: Seen, held: set<Lock>, pending: seq<Write>, w: Write)
    requires Guarded(x) && DbOk(db) && ParamsOk(db, x) && GuardedOk(c, db, x, st, seen, held, pending) && w in pending
    ensures WriteRowOk(w, db)
  {
    hide DbOk;
    if x.ChangeRole? && MemberKey(x.tenant, x.user) in db.members { MemberHome(db, MemberKey(x.tenant, x.user)); }
  }

  lemma InvitationWritesOk(c: Config, db: Db, x: Txn, st: Stage, seen: Seen, held: set<Lock>, pending: seq<Write>, w: Write)
    requires x.AcceptInvite? || x.RevokeInvite?
    requires DbOk(db) && ParamsOk(db, x) && StageOk(c, db, x, st, seen, held, pending) && w in pending
    ensures WriteRowOk(w, db)
  {
    hide DbOk, TenantRowOk, ParamsOk;
    if seen.SawInvite? && seen.inviteId in db.invitations { InvitationHome(db, seen.inviteId); }
  }

  lemma TenantWritesOk(c: Config, db: Db, x: Txn, st: Stage, seen: Seen, held: set<Lock>, pending: seq<Write>, w: Write)
    requires x.ClaimTenant? || x.ChangePlan? || x.ArchiveTenant?
    requires DbOk(db) && ParamsOk(db, x) && StageOk(c, db, x, st, seen, held, pending) && w in pending
    ensures WriteRowOk(w, db)
  {
    hide DbOk, InvitationRowOk;
    if seen.SawTenant? && seen.tenantId in db.tenants { TenantHome(db, seen.tenantId); }
  }

  lemma OtherWritesOk(c: Config, db: Db, x: Txn, st: Stage, seen: Seen, held: set<Lock>, pending: seq<Write>, w: Write)
    requires !Guarded(x)
    requires DbOk(db) && ParamsOk(db, x) && StageOk(c, db, x, st, seen, held, pending) && w in pending
    ensures WriteRowOk(w, db)
  {
    hide DbOk, InvitationRowOk, TenantRowOk;
    if x.AcceptInvite? || x.RevokeInvite? {
      InvitationWritesOk(c, db, x, st, seen, held, pending, w);
    } else if x.ClaimTenant? || x.ChangePlan? || x.ArchiveTenant? {
      TenantWritesOk(c, db, x, st, seen, held, pending, w);
    }
  }

  /** No write that a request has issued, at any point of any run, violates a CHECK constraint. */
  lemma WritesMeetChecks(c: Config, s: State, r: nat, w: Write)
    requires Reachable(c, s) && r in s.reqs && s.reqs[r].phase.Run? && w in s.reqs[r].phase.pending
    ensures WriteMeetsChecks(w, s.db)
  {
    hide Reachable, DbOk, LocksOk, ParamsOk, StageOk, WriteMeetsChecks, WriteRowOk;
    ReachableInv(c, s);
    assert ReqOk(c, s.db, s.reqs[r]);
    var Run(x, st, seen, held, pending) := s.reqs[r].phase;
    if Guarded(x) {
      assert GuardedOk(c, s.db, x, st, seen, held, pending) by { GuardedStageOk(c, s.db, x, st, seen, held, pending); }
      GuardedWritesOk(c, s.db, x, st, seen, held, pending, w);
    } else {
      OtherWritesOk(c, s.db, x, st, seen, held, pending, w);
    }
    RowOkMeetsChecks(w, s.db);
  }

  lemma GuardedStageOk(c: Config, db: Db, x: Txn, st: Stage, seen: Seen, held: set<Lock>, pending: seq<Write>)
    requires Guarded(x) && StageOk(c, db, x, st, seen, held, pending)
    ensures GuardedOk(c, db, x, st, seen, held, pending)
  {
    hide GuardedOk;
  }

  /** Nor does a registration. */
  lemma RegistrationMeetsChecks(c: Config, call: Call, now: int)
    requires call.StartTenantRegistration?
    ensures TenantChecks(EncodeTenant(NewTenantRow(c, call, now)))
  {
    TenantRowMeetsChecks(NewTenantRow(c, call, now));
  }

  ghost predicate TenantsParseBack(db: Db, ctx: Ctx) {
    forall t :: t in db.tenants && VerifyOwnership(ctx, db.tenants[t].publicId).None? ==>
      var row := db.tenants[t];
      TenantDomain(ctx, EncodeTenant(row)) ==
      Ok(TenantModel(row.publicId, row.name, row.plan, row.ownership,
                     if row.subdomain.Some? then row.subdomain.value else "", row.archived))
  }

  ghost predicate MemberParsesBack(m: Member) { RoleNamed(RoleString(m.role)) == Ok(m.role) && ParseDisplayName(m.name) == Ok(m.name) }

  ghost predicate InvitationParsesBack(i: Invitation) {
    InvitationDomain(EncodeInvitation(i)) == Ok(InvitationModel(i.publicId, i.tenantId, i.role, i.name, i.expiresAt, StateOf(i)))
  }

  /** In every reachable state every stored row meets its CHECK constraints and parses back to the
      value that was written. */
  lemma StoredRowsParseBack(c: Config, s: State, ctx: Ctx)
    requires Reachable(c, s)
    ensures TenantsParseBack(s.db, ctx)
    ensures forall k :: k in s.db.members ==> MemberParsesBack(s.db.members[k])
    ensures forall i :: i in s.db.invitations ==> InvitationParsesBack(s.db.invitations[i])
    ensures forall k :: k in s.db.eventRoles ==> RoleNamed(RoleString(s.db.eventRoles[k].role)) == Ok(s.db.eventRoles[k].role)
    ensures forall e :: e in s.db.events ==> StatusNamed(StatusString(s.db.events[e].status)) == Ok(s.db.events[e].status)
  {
    hide Reachable, Inv, DbOk, TenantRowOk, MemberRowOk, InvitationRowOk, RoleString, RoleNamed, StatusString,
         StatusNamed, TenantDomain, EncodeTenant, ParseDisplayName, InvitationDomain, EncodeInvitation,
         VerifyOwnership;
    ReachableInv(c, s);
    forall t | t in s.db.tenants ensures TenantRowOk(s.db.tenants[t]) { TenantHome(s.db, t); }
    forall t | t in s.db.tenants && VerifyOwnership(ctx, s.db.tenants[t].publicId).None?
      ensures var row := s.db.tenants[t];
              TenantDomain(ctx, EncodeTenant(row)) ==
              Ok(TenantModel(row.publicId, row.name, row.plan, row.ownership,
                             if row.subdomain.Some? then row.subdomain.value else "", row.archived))
    {
      TenantRowRoundTrip(ctx, s.db.tenants[t]);
    }
    forall k | k in s.db.members ensures MemberParsesBack(s.db.members[k]) {
      MemberHome(s.db, k);
      MemberBack(s.db.members[k]);
    }
    forall i | i in s.db.invitations ensures InvitationParsesBack(s.db.invitations[i]) {
      InvitationHome(s.db, i);
      InvitationRowRoundTrip(s.db.invitations[i]);
    }
    forall k | k in s.db.eventRoles ensures RoleNamed(RoleString(s.db.eventRoles[k].role)) == Ok(s.db.eventRoles[k].role) {
      NamesAreDistinct(s.db.eventRoles[k].role, Owned, Open);
    }
    forall e | e in s.db.events ensures StatusNamed(StatusString(s.db.events[e].status)) == Ok(s.db.events[e].status) {
      NamesAreDistinct(RoleOwner, Owned, s.db.events[e].status);
    }
  }

  lemma MemberBack(m: Member)
    requires MemberRowOk(m)
    ensures MemberParsesBack(m)
  {
    MemberRowRoundTrip(m);
  }
}

/** The inductive invariant of the concurrent service: the committed state meets every
    constraint, no two requests hold clashing locks, and what each request has read under a lock is
    still so. */
module Invariant {
  import opened Domain
  import opened Subdomains
  import opened TenantContext
  import opened Tables
  import opened AtomicLaws
  import opened Machine

  // ---------------------------------------------------------------- what a request relies on

  predicate HoldsAdvisory(c: Config, t: Id, held: set<Lock>) { Lock(AdvisoryKey(c.hashText(t)), ForUpdate) in held }

  /** The permission check has passed and its share lock is held. */
  predicate CallerOk(db: Db, t: Id, caller: Option<Id>, held: set<Lock>) {
    MayWrite(db, t, caller) && Lock(MemberRow(MemberKey(t, caller.value)), Share) in held
  }

  predicate SlotReserved(db: Db, k: MemberKey, held: set<Lock>) {
    k !in db.members && Lock(MemberSlot(k), ForUpdate) in held
  }

  predicate InviteHeld(db: Db, seen: Seen, held: set<Lock>) {
    seen.SawInvite? && seen.inviteId in db.invitations && db.invitations[seen.inviteId] == seen.invite &&
    Lock(InvitationRow(seen.inviteId), ForUpdate) in held && InvitationOpen(seen.invite, seen.at)
  }

  predicate TenantHeld(db: Db, seen: Seen, p: Id, held: set<Lock>) {
    seen.SawTenant? && seen.tenantId in db.tenants && db.tenants[seen.tenantId] == seen.tenant &&
    Lock(TenantRow(seen.tenantId), ForUpdate) in held && seen.tenant.publicId == p
  }

  predicate RoleHeld(db: Db, seen: Seen, k: MemberKey, held: set<Lock>) {
    seen.SawRole? && k in db.members && db.members[k].role == seen.role && Lock(MemberRow(k), Share) in held
  }

  /** The single write of a permission-checked membership transaction, and what it relies on. */
  ghost predicate GuardedReady(db: Db, x: Txn, held: set<Lock>, pending: seq<Write>)
    requires Guarded(x)
  {
    match x
    case ChangeRole(t, _, u, role) =>
      var k := MemberKey(t, u);
      pending == [SetRole(k, role)] && k in db.members && Lock(MemberRow(k), NoKeyUpdate) in held
    case RevokeMember(t, _, u) =>
      var k := MemberKey(t, u);
      pending == [DropMember(k)] && k in db.members && Lock(MemberRow(k), ForUpdate) in held && Lock(MemberSlot(k), ForUpdate) in held
    case GrantRole(t, _, e, u, role) =>
      pending == [PutRole(RoleKey(e, u), EventRole(t, role))] && MemberKey(t, u) in db.members &&
      Lock(MemberRow(MemberKey(t, u)), KeyShare) in held && Lock(RoleSlot(RoleKey(e, u)), ForUpdate) in held
    case RevokeEventRole(_, _, e, u) =>
      pending == [DropRole(RoleKey(e, u))] && RoleKey(e, u) in db.eventRoles && Lock(RoleSlot(RoleKey(e, u)), ForUpdate) in held
    case Invite(_, _, id, row) =>
      pending == [PutInvitation(id, row)] && id !in db.invitations &&
      !InvitationPublicIdTaken(db, row.publicId) && !TokenTaken(db, row.tokenHash) &&
      Lock(InvitationSlot(id), ForUpdate) in held && Lock(InvitationPublicSlot(row.publicId), ForUpdate) in held &&
      Lock(TokenSlot(row.tokenHash), ForUpdate) in held
  }

  ghost predicate GuardedOk(c: Config, db: Db, x: Txn, st: Stage, seen: Seen, held: set<Lock>, pending: seq<Write>)
    requires Guarded(x)
  {
    seen == Nothing && st in {TakeAdvisory, Authorize, KeepTarget, CountOwners, Mutate, CommitPoint} &&
    (st != TakeAdvisory ==> HoldsAdvisory(c, x.tenant, held)) &&
    (st in {KeepTarget, CountOwners, Mutate, CommitPoint} ==> CallerOk(db, x.tenant, x.caller, held)) &&
    (st in {KeepTarget, CountOwners} ==> ChecksLastOwner(x)) &&
    (st == CountOwners ==> IsOwner(db, x.tenant, x.user) && Lock(MemberRow(MemberKey(x.tenant, x.user)), Share) in held) &&
    (ChecksLastOwner(x) && st in {Mutate, CommitPoint} ==> HasOtherOwner(db.members, x.tenant, x.user)) &&
    (if st == CommitPoint then GuardedReady(db, x, held, pending) else pending == [])
  }

  ghost predicate AcceptOk(c: Config, db: Db, x: Txn, st: Stage, seen: Seen, held: set<Lock>, pending: seq<Write>)
    requires x.AcceptInvite?
  {
    var k := MemberKey(x.tenant, x.subject);
    st in {TakeAdvisory, FindInvite, InsertMember, CloseInvite, CommitPoint} &&
    (st != TakeAdvisory ==> HoldsAdvisory(c, x.tenant, held)) &&
    (if st in {TakeAdvisory, FindInvite} then seen == Nothing
     else InviteHeld(db, seen, held) && seen.invite.tenantId == x.tenant && seen.invite.tokenHash == x.token &&
          x.seenOwned && !x.seenArchived) &&
    (st in {CloseInvite, CommitPoint} ==> SlotReserved(db, k, held)) &&
    pending == if st == CloseInvite then [PutMember(k, Member(seen.invite.role, seen.invite.name))]
               else if st == CommitPoint then [PutMember(k, Member(seen.invite.role, seen.invite.name)),
                                               SetAccepted(seen.inviteId, Acceptance(seen.at, x.subject))]
               else []
  }

  ghost predicate RevokeInviteOk(db: Db, x: Txn, st: Stage, seen: Seen, held: set<Lock>, pending: seq<Write>)
    requires x.RevokeInvite?
  {
    st in {FindInvite, Mutate, CommitPoint} &&
    (if st == FindInvite then seen == Nothing
     else InviteHeld(db, seen, held) && seen.invite.tenantId == x.tenant && seen.invite.publicId == x.publicId) &&
    pending == if st == CommitPoint then [SetRevoked(seen.inviteId, seen.at)] else []
  }

  ghost predicate AddMemberOk(db: Db, x: Txn, st: Stage, seen: Seen, held: set<Lock>, pending: seq<Write>)
    requires x.AddMember?
  {
    var k := MemberKey(x.tenant, x.user);
    seen == Nothing && st in {Mutate, CommitPoint} && (st == CommitPoint ==> SlotReserved(db, k, held)) &&
    pending == if st == CommitPoint then [PutMember(k, Member(x.role, x.name))] else []
  }

  ghost predicate ClaimOk(db: Db, x: Txn, st: Stage, seen: Seen, held: set<Lock>, pending: seq<Write>)
    requires x.ClaimTenant?
  {
    st in {LockTenant, InsertMember, MarkOwned, CommitPoint} &&
    (if st == LockTenant then seen == Nothing && pending == []
     else
       var k := MemberKey(if seen.SawTenant? then seen.tenantId else "", x.subject);
       TenantHeld(db, seen, x.publicId, held) && ClaimMatches(seen.tenant, x.token, seen.at) &&
       (x.boundTenant.Some? ==> x.boundTenant.value == x.publicId) &&
       (st in {MarkOwned, CommitPoint} ==> SlotReserved(db, k, held)) &&
       (st == CommitPoint ==> !SubdomainTaken(db, x.subdomain) && Lock(SubdomainSlot(x.subdomain), ForUpdate) in held) &&
       pending == if st == MarkOwned then [PutMember(k, Member(RoleOwner, x.name))]
                  else if st == CommitPoint then [PutMember(k, Member(RoleOwner, x.name)), SetOwned(seen.tenantId, x.subdomain)]
                  else [])
  }

  ghost predicate AdminOk(db: Db, x: Txn, st: Stage, seen: Seen, held: set<Lock>, pending: seq<Write>)
    requires Administers(x)
  {
    st in {LockTenant, Authorize, Mutate, CommitPoint} &&
    (if st == LockTenant then seen == Nothing && pending == []
     else
       TenantHeld(db, seen, x.publicId, held) && seen.tenant.ownership == Owned && !seen.tenant.archived &&
       (st in {Mutate, CommitPoint} ==> CallerOk(db, seen.tenantId, x.caller, held)) &&
       pending == if st == CommitPoint
                  then [if x.ChangePlan? then SetAdmin(seen.tenantId, x.plan, seen.tenant.archived)
                        else SetAdmin(seen.tenantId, seen.tenant.plan, true)]
                  else [])
  }

  ghost predicate NewEventOk(db: Db, x: Txn, st: Stage, seen: Seen, held: set<Lock>, pending: seq<Write>)
    requires x.NewEvent?
  {
    st in {Authorize, GuardTenant, InsertEvent, GrantCreator, CommitPoint} &&
    (if st == Authorize then seen == Nothing else RoleHeld(db, seen, MemberKey(x.tenant, x.subject), held)) &&
    (st in {GrantCreator, CommitPoint} ==>
       x.id !in db.events && Lock(EventSlot(x.id), ForUpdate) in held &&
       !EventPublicIdTaken(db, x.draft.publicId) && Lock(EventPublicSlot(x.draft.publicId), ForUpdate) in held &&
       Lock(TenantRow(x.tenant), KeyShare) in held) &&
    (st == CommitPoint ==> Grantable(seen.role) == None && Lock(RoleSlot(RoleKey(x.id, x.subject)), ForUpdate) in held) &&
    pending == if st == GrantCreator then [PutEvent(x.id, x.draft)]
               else if st == CommitPoint then [PutEvent(x.id, x.draft), PutRole(RoleKey(x.id, x.subject), EventRole(x.tenant, seen.role))]
               else []
  }

  ghost predicate SetStatusOk(db: Db, x: Txn, st: Stage, seen: Seen, held: set<Lock>, pending: seq<Write>)
    requires x.SetStatus?
  {
    seen == Nothing && st in {GuardStatus, Mutate, CommitPoint} &&
    (st == CommitPoint ==> Lock(EventRow(x.event), NoKeyUpdate) in held) &&
    pending == if st == CommitPoint then [SetEvent(x.event, x.name, x.status)] else []
  }

  ghost predicate StageOk(c: Config, db: Db, x: Txn, st: Stage, seen: Seen, held: set<Lock>, pending: seq<Write>) {
    match x
    case AcceptInvite(_, _, _, _, _) => AcceptOk(c, db, x, st, seen, held, pending)
    case RevokeInvite(_, _) => RevokeInviteOk(db, x, st, seen, held, pending)
    case AddMember(_, _, _, _) => AddMemberOk(db, x, st, seen, held, pending)
    case ClaimTenant(_, _, _, _, _, _) => ClaimOk(db, x, st, seen, held, pending)
    case ChangePlan(_, _, _) => AdminOk(db, x, st, seen, held, pending)
    case ArchiveTenant(_, _) => AdminOk(db, x, st, seen, held, pending)
    case NewEvent(_, _, _, _) => NewEventOk(db, x, st, seen, held, pending)
    case SetStatus(_, _, _) => SetStatusOk(db, x, st, seen, held, pending)
    case _ => GuardedOk(c, db, x, st, seen, held, pending)
  }

  /** An event loaded by the first half of a gate is still the same event, and the call it was
      loaded for names a role that may be stored. */
  ghost predicate EventSeenOk(db: Db, call: Call, e: Id, row: Event) {
    e in db.events && SameEvent(row, db.events[e]) && (call.GrantEventRole? ==> StoredRole(call.role))
  }

  ghost predicate ReqOk(c: Config, db: Db, q: Req) {
    match q.phase
    case Start => true
    case EventSeen(e, row) => EventSeenOk(db, q.call, e, row)
    case Sweeping(_) => q.call.StartTenantRegistration?
    case Swept(_) => q.call.StartTenantRegistration?
    case ReadBack(_) => true
    case Run(x, st, seen, held, pending) => ParamsOk(db, x) && StageOk(c, db, x, st, seen, held, pending)
    case Done(_) => true
  }

  predicate Compatible(a: set<Lock>, b: set<Lock>) { forall h, l :: h in a && l in b ==> !Clash(h, l) }

  ghost predicate LocksOk(s: State) {
    forall a, b :: a in s.reqs && b in s.reqs && a != b ==> Compatible(Held(s.reqs[a]), Held(s.reqs[b]))
  }

  ghost predicate ReqsOk(c: Config, s: State) { forall r :: r in s.reqs ==> ReqOk(c, s.db, s.reqs[r]) }

  ghost predicate Inv(c: Config, s: State) { DbOk(s.db) && LocksOk(s) && ReqsOk(c, s) }

  // ---------------------------------------------------------------- one request's own steps

  /** A granted lock takes nothing away. */
  lemma TakeKeepsStage(c: Config, db: Db, x: Txn, st: Stage, seen: Seen, held: set<Lock>, pending: seq<Write>, l: Lock)
    requires StageOk(c, db, x, st, seen, held, pending)
    ensures StageOk(c, db, x, st, seen, held + {l}, pending)
  {
  }

  lemma ExecuteGuarded(c: Config, db: Db, x: Txn, st: Stage, seen: Seen, held: set<Lock>, pending: seq<Write>, clock: int)
    requires Guarded(x) && DbOk(db) && ParamsOk(db, x) && GuardedOk(c, db, x, st, seen, held, pending)
    requires Wants(c, x, st, seen, held, db) == {} && st != CommitPoint && Execute(x, st, seen, db, clock).Go?
    ensures var e := Execute(x, st, seen, db, clock); GuardedOk(c, db, x, e.stage, e.seen, held, pending + e.writes)
  {
    hide TenantRows, EventRows, MemberRows, RoleRows, InvitationRows, UniqueTenants, UniqueEvents, UniqueInvitations,
         EventRefs, MemberRefs, RoleRefs, InvitationRefs, OwnersOk;
    if st == KeepTarget || st == CountOwners {
      OwnerOfOwned(db, x.tenant);
      LastOwnerRule(db, x.tenant, x.user);
    }
    if st == Mutate && x.GrantRole? && RoleKey(x.event, x.user) in db.eventRoles {
      RoleHome(db, RoleKey(x.event, x.user));
    }
  }

  lemma ExecuteAccept(c: Config, db: Db, x: Txn, st: Stage, seen: Seen, held: set<Lock>, pending: seq<Write>, clock: int)
    requires x.AcceptInvite? && AcceptOk(c, db, x, st, seen, held, pending)
    requires Wants(c, x, st, seen, held, db) == {} && st != CommitPoint && Execute(x, st, seen, db, clock).Go?
    ensures var e := Execute(x, st, seen, db, clock); AcceptOk(c, db, x, e.stage, e.seen, held, pending + e.writes)
  {
  }

  lemma ExecuteSimple(c: Config, db: Db, x: Txn, st: Stage, seen: Seen, held: set<Lock>, pending: seq<Write>, clock: int)
    requires x.RevokeInvite? || x.AddMember? || x.SetStatus?
    requires StageOk(c, db, x, st, seen, held, pending)
    requires Wants(c, x, st, seen, held, db) == {} && st != CommitPoint && Execute(x, st, seen, db, clock).Go?
    ensures var e := Execute(x, st, seen, db, clock); StageOk(c, db, x, e.stage, e.seen, held, pending + e.writes)
  {
  }

  lemma ExecuteClaim(c: Config, db: Db, x: Txn, st: Stage, seen: Seen, held: set<Lock>, pending: seq<Write>, clock: int)
    requires x.ClaimTenant? && ClaimOk(db, x, st, seen, held, pending)
    requires Wants(c, x, st, seen, held, db) == {} && st != CommitPoint && Execute(x, st, seen, db, clock).Go?
    ensures var e := Execute(x, st, seen, db, clock); ClaimOk(db, x, e.stage, e.seen, held, pending + e.writes)
  {
  }

  lemma ExecuteAdmin(c: Config, db: Db, x: Txn, st: Stage, seen: Seen, held: set<Lock>, pending: seq<Write>, clock: int)
    requires Administers(x) && AdminOk(db, x, st, seen, held, pending)
    requires Wants(c, x, st, seen, held, db) == {} && st != CommitPoint && Execute(x, st, seen, db, clock).Go?
    ensures var e := Execute(x, st, seen, db, clock); AdminOk(db, x, e.stage, e.seen, held, pending + e.writes)
  {
  }

  lemma ExecuteEvent(c: Config, db: Db, x: Txn, st: Stage, seen: Seen, held: set<Lock>, pending: seq<Write>, clock: int)
    requires x.NewEvent? && ParamsOk(db, x) && NewEventOk(db, x, st, seen, held, pending)
    requires Wants(c, x, st, seen, held, db) == {} && st != CommitPoint && Execute(x, st, seen, db, clock).Go?
    ensures var e := Execute(x, st, seen, db, clock); NewEventOk(db, x, e.stage, e.seen, held, pending + e.writes)
  {
  }

  /** A statement leaves its request with everything its next statement relies on. */
  lemma ExecuteKeepsStage(c: Config, db: Db, x: Txn, st: Stage, seen: Seen, held: set<Lock>, pending: seq<Write>, clock: int)
    requires DbOk(db) && ParamsOk(db, x) && StageOk(c, db, x, st, seen, held, pending)
    requires Wants(c, x, st, seen, held, db) == {} && st != CommitPoint && Execute(x, st, seen, db, clock).Go?
    ensures var e := Execute(x, st, seen, db, clock); StageOk(c, db, x, e.stage, e.seen, held, pending + e.writes)
  {
    hide DbOk, ParamsOk, Wants, Execute, GuardedOk, AcceptOk, ClaimOk, AdminOk, NewEventOk, SetStatusOk, AddMemberOk,
         RevokeInviteOk;
    if Guarded(x) { ExecuteGuarded(c, db, x, st, seen, held, pending, clock); }
    else if x.AcceptInvite? { ExecuteAccept(c, db, x, st, seen, held, pending, clock); }
    else if x.ClaimTenant? { ExecuteClaim(c, db, x, st, seen, held, pending, clock); }
    else if Administers(x) { ExecuteAdmin(c, db, x, st, seen, held, pending, clock); }
    else if x.NewEvent? { ExecuteEvent(c, db, x, st, seen, held, pending, clock); }
    else { ExecuteSimple(c, db, x, st, seen, held, pending, clock); }
  }
}

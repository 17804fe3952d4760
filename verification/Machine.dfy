/** The service as concurrent transactions: requests pass their gates, then step through locks,
    checked reads, writes and a commit, interleaved in any order. A step is named by a label, and a
    step that is not possible changes nothing, so every sequence of labels is a schedule. */
module Machine {
  import opened Domain
  import opened Subdomains
  import opened TenantContext
  import opened Tables

  /** The parameters of the service: hashtext, SHA-256 and the two lifetimes. */
  datatype Config = Config(hashText: Id -> int, sha: string -> Hash, claimTtl: int, invitationTtl: int)

  /** The writing use cases. Generated identifiers and tokens are inputs. */
  datatype Call =
    | StartTenantRegistration(name: string, plan: string, newId: Id, newPublicId: Id, token: string)
    | ClaimTenantOwnership(tenant: Id, token: string, subdomain: string, displayName: string)
    | ChangeTenantContract(tenant: Id, plan: string)
    | ArchiveTenantCall(tenant: Id)
    | CreateEvent(tenant: Id, name: string, newId: Id, newPublicId: Id)
    | TransitionEventStatus(event: Id, to: EventStatus)
    | AddTenantMember(tenant: Id, user: Id, role: Role, displayName: string)
    | ChangeTenantRole(tenant: Id, user: Id, role: Role)
    | GrantEventRole(event: Id, user: Id, role: Role)
    | RevokeRole(user: Id, tenant: Id, event: Id)
    | CreateTenantInvitation(tenant: Id, role: Role, displayName: string, newId: Id, newPublicId: Id, token: string)
    | RevokeTenantInvitation(tenant: Id, invitation: Id)
    | AcceptTenantInvitation(tenant: Id, token: string)

  // ---------------------------------------------------------------- locks

  /** What a lock is taken on: an advisory key, a row, or the slot of a unique key that an insert
      or a delete in progress occupies. */
  datatype Target =
    | AdvisoryKey(key: int)
    | TenantRow(tenant: Id)
    | SubdomainSlot(subdomain: string)
    | MemberRow(member: MemberKey)
    | MemberSlot(member: MemberKey)
    | EventRow(event: Id)
    | EventSlot(event: Id)
    | EventPublicSlot(publicId: Id)
    | RoleSlot(role: RoleKey)
    | InvitationRow(invitation: Id)
    | InvitationSlot(invitation: Id)
    | InvitationPublicSlot(publicId: Id)
    | TokenSlot(hash: Hash)

  /** The row lock modes of PostgreSQL; slots and advisory keys are taken in the strongest. */
  datatype Mode = KeyShare | Share | NoKeyUpdate | ForUpdate

  datatype Lock = Lock(target: Target, mode: Mode)

  predicate Conflict(a: Mode, b: Mode) {
    a == ForUpdate || b == ForUpdate ||
    (a == NoKeyUpdate && b != KeyShare) || (b == NoKeyUpdate && a != KeyShare)
  }

  /** The conflict table of PostgreSQL's row locks. */
  lemma ConflictTable(a: Mode, b: Mode)
    ensures Conflict(a, b) <==> b in match a
                                     case KeyShare => {ForUpdate}
                                     case Share => {NoKeyUpdate, ForUpdate}
                                     case NoKeyUpdate => {Share, NoKeyUpdate, ForUpdate}
                                     case ForUpdate => {KeyShare, Share, NoKeyUpdate, ForUpdate}
  {
  }

  predicate Clash(a: Lock, b: Lock) { a.target == b.target && Conflict(a.mode, b.mode) }

  // ---------------------------------------------------------------- requests

  datatype Stage =
    | TakeAdvisory      // LockTenantMemberships
    | Authorize         // FindTenantRoleForShare of the caller
    | KeepTarget        // keepAnotherOwner: FindTenantRoleForShare of the target
    | CountOwners       // keepAnotherOwner: CountTenantOwners
    | Mutate            // the one write of the transaction
    | FindInvite        // FindInvitation...ForUpdate
    | LockTenant        // FindTenantByPublicIDForUpdate
    | InsertMember      // AddTenantMember / AddOwner inside a larger transaction
    | CloseInvite       // MarkInvitationAccepted
    | MarkOwned         // MarkTenantOwned
    | GuardTenant       // the archived guard of the event insert
    | InsertEvent       // the event insert
    | GrantCreator      // GrantEventRole to the creator
    | GuardStatus       // the archived guard of the event update
    | CommitPoint

  /** What a transaction has read and carries to its later statements. */
  datatype Seen =
    | Nothing
    | SawTenant(tenantId: Id, tenant: Tenant, at: int)
    | SawInvite(inviteId: Id, invite: Invitation, at: int)
    | SawRole(role: Role)

  datatype Write =
    | PutMember(key: MemberKey, member: Member)
    | SetRole(key: MemberKey, role: Role)
    | DropMember(key: MemberKey)
    | PutEvent(event: Id, row: Event)
    | SetEvent(event: Id, name: string, status: EventStatus)
    | PutRole(roleKey: RoleKey, eventRole: EventRole)
    | DropRole(roleKey: RoleKey)
    | PutInvitation(invitation: Id, invite: Invitation)
    | SetAccepted(invitation: Id, acceptance: Acceptance)
    | SetRevoked(invitation: Id, at: int)
    | SetOwned(tenant: Id, subdomain: string)
    | SetAdmin(tenant: Id, plan: string, archived: bool)

  /** The effect of a write; an update that finds no row does nothing. */
  function Apply(w: Write, db: Db): Db {
    match w
    case PutMember(k, m) => db.(members := db.members[k := m])
    case SetRole(k, r) => if k in db.members then db.(members := db.members[k := db.members[k].(role := r)]) else db
    case DropMember(k) => WithoutMember(db, k.tenant, k.user)
    case PutEvent(e, row) => db.(events := db.events[e := row])
    case SetEvent(e, n, st) => if e in db.events then db.(events := db.events[e := db.events[e].(name := n, status := st)]) else db
    case PutRole(k, r) => db.(eventRoles := db.eventRoles[k := r])
    case DropRole(k) => db.(eventRoles := db.eventRoles - {k})
    case PutInvitation(i, row) => db.(invitations := db.invitations[i := row])
    case SetAccepted(i, a) =>
      if i in db.invitations then db.(invitations := db.invitations[i := db.invitations[i].(accepted := Some(a))]) else db
    case SetRevoked(i, at) =>
      if i in db.invitations then db.(invitations := db.invitations[i := db.invitations[i].(revoked := Some(at))]) else db
    case SetOwned(t, s) =>
      if t in db.tenants then
        db.(tenants := db.tenants[t := db.tenants[t].(ownership := Owned, subdomain := Some(s), tokenHash := None, expiresAt := None)])
      else db
    case SetAdmin(t, p, a) =>
      if t in db.tenants then db.(tenants := db.tenants[t := db.tenants[t].(plan := p, archived := a)]) else db
  }

  function ApplyAll(ws: seq<Write>, db: Db): Db {
    if ws == [] then db else ApplyAll(ws[1..], Apply(ws[0], db))
  }

  datatype Reply = Success | Failure(error: Error)

  datatype Phase =
    | Start
    | EventSeen(event: Id, row: Event)
    | Sweeping(now: int)   // the clock has been read, the delete not yet issued
    | Swept(now: int)
    | ReadBack(key: MemberKey)   // AddTenantMember has committed its insert and reads the membership back
    | Run(txn: Txn, stage: Stage, seen: Seen, held: set<Lock>, pending: seq<Write>)
    | Done(reply: Reply)

  datatype Req = Req(call: Call, ctx: Ctx, phase: Phase)

  datatype State = State(db: Db, reqs: map<nat, Req>, clock: int)

  function Held(q: Req): set<Lock> { if q.phase.Run? then q.phase.held else {} }

  predicate Guarded(x: Txn) { x.ChangeRole? || x.RevokeMember? || x.GrantRole? || x.RevokeEventRole? || x.Invite? }
  predicate Serialized(x: Txn) { Guarded(x) || x.AcceptInvite? }
  predicate Administers(x: Txn) { x.ChangePlan? || x.ArchiveTenant? }
  predicate ChecksLastOwner(x: Txn) { x.RevokeMember? || (x.ChangeRole? && x.role != RoleOwner) }

  /** The writes of events, guarded by the archived flag of their tenant. */
  predicate WritesEvent(x: Txn) { x.NewEvent? || x.SetStatus? }

  /** The statements after the one that reads the flag. */
  predicate PastGuard(x: Txn, st: Stage) {
    (x.NewEvent? && st in {InsertEvent, GrantCreator, CommitPoint}) || (x.SetStatus? && st in {Mutate, CommitPoint})
  }

  function FirstStage(x: Txn): Stage {
    if Serialized(x) then TakeAdvisory
    else match x
         case ClaimTenant(_, _, _, _, _, _) => LockTenant
         case ChangePlan(_, _, _) => LockTenant
         case ArchiveTenant(_, _) => LockTenant
         case NewEvent(_, _, _, _) => Authorize
         case SetStatus(_, _, _) => GuardStatus
         case RevokeInvite(_, _) => FindInvite
         case _ => Mutate
  }

  // ---------------------------------------------------------------- gates

  /** writableTenant: the tenant named must be the authenticated one, owned and not archived. */
  ghost function WritableTenant(ctx: Ctx, p: Id, db: Db): (r: Result<Id>)
    ensures r.Ok? ==> OwnedTenant(db, r.value) && db.tenants[r.value].publicId == p && !db.tenants[r.value].archived &&
                      TenantOf(ctx) == Some(p)
  {
    if p == "" then Err(TenantIDRequired)
    else if Ensure(ctx, p).Some? then Err(Ensure(ctx, p).value)
    else
      var found := TenantByPublicId(db, p);
      if found.None? then Err(TenantNotFound)
      else if db.tenants[found.value].ownership != Owned then Err(TenantPendingOwner)
      else if db.tenants[found.value].archived then Err(TenantArchived)
      else Ok(found.value)
  }

  /** The first half of writableEvent: the event itself. */
  ghost function WritableEvent(ctx: Ctx, p: Id, db: Db): (r: Result<Id>)
    ensures r.Ok? ==> r.value in db.events && TenantOf(ctx) == Some(db.events[r.value].tenantPublicId)
  {
    if p == "" then Err(EventIDRequired)
    else
      var found := EventByPublicId(db, p);
      if found.None? then Err(EventNotFound)
      else
        var row := db.events[found.value];
        if Ensure(ctx, row.tenantPublicId).Some? then Err(Ensure(ctx, row.tenantPublicId).value)
        else if row.status == Archived then Err(EventIsArchived)
        else Ok(found.value)
  }

  datatype Gated = Refuse(error: Error) | LoadTenantOf(event: Id, row: Event) | SweepFirst | Begin(txn: Txn)

  ghost function GateEvent(ctx: Ctx, p: Id, db: Db): Gated {
    var e := WritableEvent(ctx, p, db);
    if e.Err? then Refuse(e.error) else LoadTenantOf(e.value, db.events[e.value])
  }

  /** What each use case does before its transaction. */
  ghost function Gate(c: Config, clock: int, call: Call, ctx: Ctx, db: Db): Gated {
    match call
    case StartTenantRegistration(name, plan, _, _, _) =>
      if name == "" then Refuse(TenantNameRequired)
      else if plan == "" then Refuse(ContractPlanRequired)
      else SweepFirst
    case ClaimTenantOwnership(p, token, subdomain, displayName) =>
      var name := ParseDisplayName(displayName);
      if p == "" then Refuse(TenantIDRequired)
      else if token == "" then Refuse(ClaimTokenRequired)
      else if !ValidSubdomain(subdomain) then Refuse(InvalidSubdomain)
      else if name.Err? then Refuse(name.error)
      else if SubjectOf(ctx).None? then Refuse(SubjectMissing)
      else Begin(ClaimTenant(p, TenantOf(ctx), c.sha(token), subdomain, SubjectOf(ctx).value, name.value))
    case ChangeTenantContract(p, plan) =>
      if plan == "" then Refuse(ContractPlanRequired)
      else if p == "" then Refuse(TenantIDRequired)
      else if Ensure(ctx, p).Some? then Refuse(Ensure(ctx, p).value)
      else Begin(ChangePlan(p, SubjectOf(ctx), plan))
    case ArchiveTenantCall(p) =>
      if p == "" then Refuse(TenantIDRequired)
      else if Ensure(ctx, p).Some? then Refuse(Ensure(ctx, p).value)
      else Begin(ArchiveTenant(p, SubjectOf(ctx)))
    case CreateEvent(p, name, newId, newPublicId) =>
      var t := WritableTenant(ctx, p, db);
      if name == "" then Refuse(EventNameRequired)
      else if t.Err? then Refuse(t.error)
      else if SubjectOf(ctx).None? then Refuse(SubjectMissing)
      else Begin(NewEvent(t.value, SubjectOf(ctx).value, newId, Event(newPublicId, t.value, p, name, Draft)))
    case TransitionEventStatus(p, to) =>
      var found := EventByPublicId(db, p);
      if p == "" then Refuse(EventIDRequired)
      else if to == StatusUnspecified then Refuse(EventStatusRequired)
      else if found.None? then Refuse(EventNotFound)
      else
        var row := db.events[found.value];
        if Ensure(ctx, row.tenantPublicId).Some? then Refuse(Ensure(ctx, row.tenantPublicId).value)
        else if !CanTransition(row.status, to) then Refuse(InvalidTransition)
        else Begin(SetStatus(found.value, row.name, to))
    case AddTenantMember(p, user, role, displayName) =>
      var name := ParseDisplayName(displayName);
      var t := WritableTenant(ctx, p, db);
      if user == "" then Refuse(UserIDRequired)
      else if Grantable(role).Some? then Refuse(Grantable(role).value)
      else if name.Err? then Refuse(name.error)
      else if t.Err? then Refuse(t.error)
      else Begin(AddMember(t.value, user, role, name.value))
    case ChangeTenantRole(p, user, role) =>
      var t := WritableTenant(ctx, p, db);
      if user == "" then Refuse(UserIDRequired)
      else if Grantable(role).Some? then Refuse(Grantable(role).value)
      else if t.Err? then Refuse(t.error)
      else Begin(ChangeRole(t.value, SubjectOf(ctx), user, role))
    case GrantEventRole(p, user, role) =>
      if user == "" then Refuse(UserIDRequired)
      else if Grantable(role).Some? then Refuse(Grantable(role).value)
      else GateEvent(ctx, p, db)
    case RevokeRole(user, p, e) =>
      if user == "" then Refuse(UserIDRequired)
      else if p != "" && e != "" then Refuse(ScopeAmbiguous)
      else if p != "" then
        var t := WritableTenant(ctx, p, db);
        if t.Err? then Refuse(t.error) else Begin(RevokeMember(t.value, SubjectOf(ctx), user))
      else if e != "" then GateEvent(ctx, e, db)
      else Refuse(ScopeRequired)
    case CreateTenantInvitation(p, role, displayName, newId, newPublicId, token) =>
      var name := ParseDisplayName(displayName);
      var t := WritableTenant(ctx, p, db);
      if Invitable(role).Some? then Refuse(Invitable(role).value)
      else if name.Err? then Refuse(name.error)
      else if t.Err? then Refuse(t.error)
      else Begin(Invite(t.value, SubjectOf(ctx), newId,
                        Invitation(newPublicId, t.value, role, name.value, c.sha(token), clock + c.invitationTtl, None, None)))
    case RevokeTenantInvitation(p, invitation) =>
      var t := WritableTenant(ctx, p, db);
      if invitation == "" then Refuse(InvitationIDRequired)
      else if t.Err? then Refuse(t.error)
      else Begin(RevokeInvite(t.value, invitation))
    case AcceptTenantInvitation(p, token) =>
      var found := TenantByPublicId(db, p);
      if p == "" then Refuse(TenantIDRequired)
      else if token == "" then Refuse(InvitationTokenRequired)
      else if SubjectOf(ctx).None? then Refuse(SubjectMissing)
      else if found.None? then Refuse(TenantNotFound)
      else if VerifyOwnership(ctx, p).Some? then Refuse(VerifyOwnership(ctx, p).value)
      else
        var row := db.tenants[found.value];
        Begin(AcceptInvite(found.value, row.ownership == Owned, row.archived, SubjectOf(ctx).value, c.sha(token)))
  }

  /** The second half of writableEvent: the tenant of the loaded event. */
  ghost function GateEventTenant(call: Call, ctx: Ctx, e: Id, row: Event, db: Db): Gated {
    var t := WritableTenant(ctx, row.tenantPublicId, db);
    if t.Err? then Refuse(t.error)
    else match call
         case GrantEventRole(_, user, role) => Begin(GrantRole(row.tenantId, SubjectOf(ctx), e, user, role))
         case RevokeRole(user, _, _) => Begin(RevokeEventRole(row.tenantId, SubjectOf(ctx), e, user))
         case _ => Refuse(Internal)
  }

  // ---------------------------------------------------------------- the lock each statement asks for

  /** First a, and once a is held, the rest. */
  function Then(a: Lock, held: set<Lock>, rest: set<Lock>): set<Lock> {
    if a in held then rest else {a}
  }

  /** The key-share lock of a foreign key on tenants. */
  function TenantFk(t: Id, held: set<Lock>, db: Db): set<Lock> {
    if t in db.tenants then Then(Lock(TenantRow(t), KeyShare), held, {}) else {}
  }

  /** A locking read or an update of a membership row locks it if it is there. */
  function RowIfPresent(k: MemberKey, m: Mode, held: set<Lock>, db: Db, rest: set<Lock>): set<Lock> {
    if k in db.members then Then(Lock(MemberRow(k), m), held, rest) else rest
  }

  /** An insert occupies its key's slot, meets a present row there, or goes on to its foreign key. */
  function InsertMemberWants(k: MemberKey, held: set<Lock>, db: Db): set<Lock> {
    Then(Lock(MemberSlot(k), ForUpdate), held, if k in db.members then {} else TenantFk(k.tenant, held, db))
  }

  /** The event roles that a membership delete cascades to, in no particular order. */
  function CascadeLocks(k: MemberKey, db: Db): set<Lock> {
    set r | r in db.eventRoles && r.user == k.user && db.eventRoles[r].tenantId == k.tenant :: Lock(RoleSlot(r), ForUpdate)
  }

  ghost function InviteWants(id: Id, row: Invitation, held: set<Lock>, db: Db): set<Lock> {
    Then(Lock(InvitationSlot(id), ForUpdate), held, if id in db.invitations then {} else
    Then(Lock(InvitationPublicSlot(row.publicId), ForUpdate), held, if InvitationPublicIdTaken(db, row.publicId) then {} else
    Then(Lock(TokenSlot(row.tokenHash), ForUpdate), held, if TokenTaken(db, row.tokenHash) then {} else
    TenantFk(row.tenantId, held, db))))
  }

  ghost function MutateWants(x: Txn, held: set<Lock>, db: Db): set<Lock> {
    match x
    case ChangeRole(t, _, u, _) => RowIfPresent(MemberKey(t, u), NoKeyUpdate, held, db, {})
    case RevokeMember(t, _, u) =>
      RowIfPresent(MemberKey(t, u), ForUpdate, held, db,
                   if MemberKey(t, u) in db.members
                   then Then(Lock(MemberSlot(MemberKey(t, u)), ForUpdate), held, CascadeLocks(MemberKey(t, u), db) - held)
                   else {})
    case GrantRole(t, _, e, u, _) =>
      Then(Lock(RoleSlot(RoleKey(e, u)), ForUpdate), held,
           if e in db.events then Then(Lock(EventRow(e), KeyShare), held, RowIfPresent(MemberKey(t, u), KeyShare, held, db, {})) else {})
    case RevokeEventRole(_, _, e, u) =>
      if RoleKey(e, u) in db.eventRoles then Then(Lock(RoleSlot(RoleKey(e, u)), ForUpdate), held, {}) else {}
    case Invite(_, _, id, row) => InviteWants(id, row, held, db)
    case AddMember(t, u, _, _) => InsertMemberWants(MemberKey(t, u), held, db)
    case SetStatus(e, _, _) => if e in db.events then Then(Lock(EventRow(e), NoKeyUpdate), held, {}) else {}
    case _ => {}
  }

  /** The caller of a permission check, and the tenant it is checked in. */
  function CallerKey(x: Txn, seen: Seen): Option<MemberKey> {
    match x
    case ChangeRole(t, c, _, _) => if c.Some? then Some(MemberKey(t, c.value)) else None
    case RevokeMember(t, c, _) => if c.Some? then Some(MemberKey(t, c.value)) else None
    case GrantRole(t, c, _, _, _) => if c.Some? then Some(MemberKey(t, c.value)) else None
    case RevokeEventRole(t, c, _, _) => if c.Some? then Some(MemberKey(t, c.value)) else None
    case Invite(t, c, _, _) => if c.Some? then Some(MemberKey(t, c.value)) else None
    case NewEvent(t, u, _, _) => Some(MemberKey(t, u))
    case ChangePlan(_, c, _) => if c.Some? && seen.SawTenant? then Some(MemberKey(seen.tenantId, c.value)) else None
    case ArchiveTenant(_, c) => if c.Some? && seen.SawTenant? then Some(MemberKey(seen.tenantId, c.value)) else None
    case _ => None
  }

  /** The invitation a locking read finds. */
  ghost function FoundInvite(x: Txn, db: Db): Option<Id> {
    match x
    case AcceptInvite(t, _, _, _, h) => InvitationByToken(db, t, h)
    case RevokeInvite(t, p) => InvitationByPublicId(db, t, p)
    case _ => None
  }

  function PublicIdOf(x: Txn): Id {
    if x.ClaimTenant? || x.ChangePlan? || x.ArchiveTenant? then x.publicId else ""
  }

  /** The membership that InsertMember inserts. */
  function NewMemberKey(x: Txn, seen: Seen): MemberKey {
    if x.ClaimTenant? then MemberKey(if seen.SawTenant? then seen.tenantId else "", x.subject)
    else if x.AcceptInvite? then MemberKey(x.tenant, x.subject)
    else MemberKey("", "")
  }

  /** The locks a request asks for now; it executes its statement once there are none. */
  ghost function Wants(c: Config, x: Txn, st: Stage, seen: Seen, held: set<Lock>, db: Db): set<Lock> {
    match st
    case TakeAdvisory => if Serialized(x) then Then(Lock(AdvisoryKey(c.hashText(x.tenant)), ForUpdate), held, {}) else {}
    case Authorize => if CallerKey(x, seen).Some? then RowIfPresent(CallerKey(x, seen).value, Share, held, db, {}) else {}
    case KeepTarget => if ChecksLastOwner(x) then RowIfPresent(MemberKey(x.tenant, x.user), Share, held, db, {}) else {}
    case CountOwners => {}
    case Mutate => MutateWants(x, held, db)
    case FindInvite => if FoundInvite(x, db).Some? then Then(Lock(InvitationRow(FoundInvite(x, db).value), ForUpdate), held, {}) else {}
    case LockTenant =>
      if TenantByPublicId(db, PublicIdOf(x)).Some?
      then Then(Lock(TenantRow(TenantByPublicId(db, PublicIdOf(x)).value), ForUpdate), held, {}) else {}
    case InsertMember => InsertMemberWants(NewMemberKey(x, seen), held, db)
    case CloseInvite => {}
    case MarkOwned => if x.ClaimTenant? then Then(Lock(SubdomainSlot(x.subdomain), ForUpdate), held, {}) else {}
    case GuardTenant => {}
    case InsertEvent =>
      if x.NewEvent? then
        Then(Lock(EventSlot(x.id), ForUpdate), held, if x.id in db.events then {} else
        Then(Lock(EventPublicSlot(x.draft.publicId), ForUpdate), held, if EventPublicIdTaken(db, x.draft.publicId) then {} else
        TenantFk(x.tenant, held, db)))
      else {}
    case GrantCreator =>
      if x.NewEvent? then
        Then(Lock(RoleSlot(RoleKey(x.id, x.subject)), ForUpdate), held,
             RowIfPresent(MemberKey(x.tenant, x.subject), KeyShare, held, db, {}))
      else {}
    case GuardStatus => {}
    case CommitPoint => {}
  }

  // ---------------------------------------------------------------- what each statement does

  datatype Effect = Go(stage: Stage, seen: Seen, writes: seq<Write>) | Fail(error: Error)

  ghost function ExecuteMutate(x: Txn, seen: Seen, db: Db): Effect {
    match x
    case ChangeRole(t, _, u, role) =>
      if MemberKey(t, u) in db.members then Go(CommitPoint, seen, [SetRole(MemberKey(t, u), role)]) else Fail(MembershipNotFound)
    case RevokeMember(t, _, u) =>
      if MemberKey(t, u) in db.members then Go(CommitPoint, seen, [DropMember(MemberKey(t, u))]) else Fail(MembershipNotFound)
    case GrantRole(_, _, e, u, role) =>
      if e !in db.events then Fail(EventNotFound)
      else if RoleKey(e, u) !in db.eventRoles && MemberKey(db.events[e].tenantId, u) !in db.members then Fail(TenantMembershipRequired)
      else Go(CommitPoint, seen, [PutRole(RoleKey(e, u), EventRole(db.events[e].tenantId, role))])
    case RevokeEventRole(_, _, e, u) =>
      if RoleKey(e, u) in db.eventRoles then Go(CommitPoint, seen, [DropRole(RoleKey(e, u))]) else Fail(EventRoleNotFound)
    case Invite(t, _, id, row) =>
      if id in db.invitations then Fail(Internal)
      else if InvitationPublicIdTaken(db, row.publicId) then Fail(InvitationPublicIDExists)
      else if TokenTaken(db, row.tokenHash) then Fail(Internal)
      else if t !in db.tenants then Fail(Internal)
      else Go(CommitPoint, seen, [PutInvitation(id, row)])
    case AddMember(t, u, role, name) =>
      if MemberKey(t, u) in db.members then Fail(MembershipAlreadyExists)
      else if t !in db.tenants then Fail(TenantNotFound)
      else Go(CommitPoint, seen, [PutMember(MemberKey(t, u), Member(role, name))])
    case RevokeInvite(_, _) =>
      if seen.SawInvite? && seen.inviteId in db.invitations then Go(CommitPoint, seen, [SetRevoked(seen.inviteId, seen.at)])
      else Fail(InvitationNotFound)
    case ChangePlan(_, _, plan) =>
      if seen.SawTenant? && seen.tenantId in db.tenants then Go(CommitPoint, seen, [SetAdmin(seen.tenantId, plan, seen.tenant.archived)])
      else Fail(TenantNotFound)
    case ArchiveTenant(_, _) =>
      if seen.SawTenant? && seen.tenantId in db.tenants then Go(CommitPoint, seen, [SetAdmin(seen.tenantId, seen.tenant.plan, true)])
      else Fail(TenantNotFound)
    case SetStatus(e, name, status) =>
      if e in db.events then Go(CommitPoint, seen, [SetEvent(e, name, status)]) else Fail(EventNotFound)
    case _ => Fail(Internal)
  }

  ghost function ExecuteAuthorize(x: Txn, seen: Seen, db: Db): Effect {
    if Guarded(x) then
      var e := Require(db, x.tenant, x.caller);
      if e.Some? then Fail(e.value) else Go(if ChecksLastOwner(x) then KeepTarget else Mutate, seen, [])
    else if Administers(x) && seen.SawTenant? then
      var e := Require(db, seen.tenantId, x.caller);
      if e.Some? then Fail(e.value) else Go(Mutate, seen, [])
    else if x.NewEvent? then
      if MemberKey(x.tenant, x.subject) !in db.members then Fail(CreatorNotMember)
      else Go(GuardTenant, SawRole(db.members[MemberKey(x.tenant, x.subject)].role), [])
    else Fail(Internal)
  }

  ghost function ExecuteFindInvite(x: Txn, db: Db, clock: int): Effect {
    var found := FoundInvite(x, db);
    if x.AcceptInvite? then
      if found.None? || !InvitationOpen(db.invitations[found.value], clock) then Fail(InvitationRejected)
      else if !x.seenOwned then Fail(TenantPendingOwner)
      else if x.seenArchived then Fail(TenantArchived)
      else Go(InsertMember, SawInvite(found.value, db.invitations[found.value], clock), [])
    else
      if found.None? then Fail(InvitationNotFound)
      else if !InvitationOpen(db.invitations[found.value], clock) then Fail(InvitationNotPending)
      else Go(Mutate, SawInvite(found.value, db.invitations[found.value], clock), [])
  }

  ghost function ExecuteLockTenant(x: Txn, db: Db, clock: int): Effect {
    var found := TenantByPublicId(db, PublicIdOf(x));
    if found.None? then Fail(TenantNotFound)
    else
      var row := db.tenants[found.value];
      if x.ClaimTenant? then
        if x.boundTenant.Some? && x.boundTenant.value != x.publicId then Fail(ContextMismatch)
        else if !ClaimMatches(row, x.token, clock) then Fail(ClaimRejected)
        else Go(InsertMember, SawTenant(found.value, row, clock), [])
      else
        if row.ownership != Owned then Fail(TenantPendingOwner)
        else if row.archived then Fail(TenantArchived)
        else Go(Authorize, SawTenant(found.value, row, clock), [])
  }

  ghost function ExecuteInsertMember(x: Txn, seen: Seen, db: Db): Effect {
    var k := NewMemberKey(x, seen);
    if k in db.members then Fail(MembershipAlreadyExists)
    else if k.tenant !in db.tenants then Fail(TenantNotFound)
    else if x.ClaimTenant? then Go(MarkOwned, seen, [PutMember(k, Member(RoleOwner, x.name))])
    else if seen.SawInvite? then Go(CloseInvite, seen, [PutMember(k, Member(seen.invite.role, seen.invite.name))])
    else Fail(Internal)
  }

  ghost function ExecuteNewEvent(x: Txn, st: Stage, seen: Seen, db: Db): Effect
    requires x.NewEvent?
  {
    match st
    case GuardTenant =>
      if x.tenant !in db.tenants then Fail(TenantNotFound)
      else if db.tenants[x.tenant].archived then Fail(TenantArchived)
      else Go(InsertEvent, seen, [])
    case InsertEvent =>
      if x.id in db.events then Fail(Internal)
      else if EventPublicIdTaken(db, x.draft.publicId) then Fail(EventPublicIDExists)
      else Go(GrantCreator, seen, [PutEvent(x.id, x.draft)])
    case _ =>
      if !seen.SawRole? then Fail(Internal)
      else if Grantable(seen.role).Some? then Fail(Grantable(seen.role).value)
      else Go(CommitPoint, seen, [PutRole(RoleKey(x.id, x.subject), EventRole(x.tenant, seen.role))])
  }

  /** One statement of a transaction, all its locks held. Own writes touch no row that a later
      statement of the same transaction reads, so db is the committed state. */
  ghost function Execute(x: Txn, st: Stage, seen: Seen, db: Db, clock: int): Effect {
    match st
    case TakeAdvisory => Go(if x.AcceptInvite? then FindInvite else Authorize, seen, [])
    case Authorize => ExecuteAuthorize(x, seen, db)
    case KeepTarget =>
      if ChecksLastOwner(x) then Go(if IsOwner(db, x.tenant, x.user) then CountOwners else Mutate, seen, []) else Fail(Internal)
    case CountOwners =>
      if !ChecksLastOwner(x) then Fail(Internal)
      else if |Owners(db, x.tenant)| <= 1 then Fail(LastOwner)
      else Go(Mutate, seen, [])
    case Mutate => ExecuteMutate(x, seen, db)
    case FindInvite => ExecuteFindInvite(x, db, clock)
    case LockTenant => ExecuteLockTenant(x, db, clock)
    case InsertMember => ExecuteInsertMember(x, seen, db)
    case CloseInvite =>
      if x.AcceptInvite? && seen.SawInvite? && seen.inviteId in db.invitations
      then Go(CommitPoint, seen, [SetAccepted(seen.inviteId, Acceptance(seen.at, x.subject))])
      else Fail(InvitationNotFound)
    case MarkOwned =>
      if !x.ClaimTenant? || !seen.SawTenant? then Fail(Internal)
      else if SubdomainTaken(db, x.subdomain) then Fail(SubdomainExists)
      else if seen.tenantId in db.tenants && db.tenants[seen.tenantId].ownership == PendingOwner
      then Go(CommitPoint, seen, [SetOwned(seen.tenantId, x.subdomain)])
      else Fail(TenantNotPendingOwner)
    case GuardStatus =>
      if !x.SetStatus? || x.event !in db.events then Fail(EventNotFound)
      else if db.events[x.event].tenantId in db.tenants && !db.tenants[db.events[x.event].tenantId].archived then Go(Mutate, seen, [])
      else Fail(TenantArchived)
    case GuardTenant => if x.NewEvent? then ExecuteNewEvent(x, st, seen, db) else Fail(Internal)
    case InsertEvent => if x.NewEvent? then ExecuteNewEvent(x, st, seen, db) else Fail(Internal)
    case GrantCreator => if x.NewEvent? then ExecuteNewEvent(x, st, seen, db) else Fail(Internal)
    case CommitPoint => Fail(Internal)
  }

  // ---------------------------------------------------------------- steps and schedules

  datatype Label =
    | Arrive(request: nat, call: Call, ctx: Ctx)
    | Tick(amount: nat)
    | Take(request: nat, lock: Lock)   // a lock is granted
    | Act(request: nat)                // a gate, a statement, or the commit
    | Abort(request: nat)              // cancellation, connection loss, deadlock victim, failed commit

  predicate Free(s: State, id: nat, l: Lock) {
    forall r :: r in s.reqs && r != id ==> forall h :: h in Held(s.reqs[r]) ==> !Clash(h, l)
  }

  function SetPhase(s: State, id: nat, p: Phase): State
    requires id in s.reqs
  {
    s.(reqs := s.reqs[id := s.reqs[id].(phase := p)])
  }

  function Enter(s: State, id: nat, g: Gated): State
    requires id in s.reqs
  {
    match g
    case Refuse(e) => SetPhase(s, id, Done(Failure(e)))
    case LoadTenantOf(e, row) => SetPhase(s, id, EventSeen(e, row))
    case SweepFirst => SetPhase(s, id, Sweeping(s.clock))
    case Begin(x) => SetPhase(s, id, Run(x, FirstStage(x), Nothing, {}, []))
  }

  /** Every tenant the sweep would delete must be free of other requests' locks. */
  predicate SweepFree(s: State, now: int) {
    forall r, h :: r in s.reqs && h in Held(s.reqs[r]) && h.target.TenantRow? ==> h.target.tenant !in Expired(s.db, now)
  }

  function NewTenantRow(c: Config, call: Call, now: int): Tenant
    requires call.StartTenantRegistration?
  {
    Tenant(call.newPublicId, call.name, call.plan, PendingOwner, None, Some(c.sha(call.token)), Some(now + c.claimTtl), false)
  }

  /** Only AddTenantMember goes on after its commit: it inserts outside any transaction of the runner. */
  function AfterCommit(x: Txn): Phase {
    if x.AddMember? then ReadBack(MemberKey(x.tenant, x.user)) else Done(Success)
  }

  /** FindMembership, on whatever is committed when it runs. */
  function ReadBackReply(k: MemberKey, db: Db): Reply { if k in db.members then Success else Failure(MembershipNotFound) }

  ghost function ActRun(c: Config, s: State, id: nat): State
    requires id in s.reqs && s.reqs[id].phase.Run?
  {
    var Run(x, st, seen, held, pending) := s.reqs[id].phase;
    if Wants(c, x, st, seen, held, s.db) != {} then s
    else if st == CommitPoint then SetPhase(s, id, AfterCommit(x)).(db := ApplyAll(pending, s.db))
    else
      match Execute(x, st, seen, s.db, s.clock)
      case Fail(e) => SetPhase(s, id, Done(Failure(e)))
      case Go(st', seen', ws) => SetPhase(s, id, Run(x, st', seen', held, pending + ws))
  }

  ghost function ActStep(c: Config, s: State, id: nat): State
    requires id in s.reqs
  {
    var q := s.reqs[id];
    match q.phase
    case Start => Enter(s, id, Gate(c, s.clock, q.call, q.ctx, s.db))
    case EventSeen(e, row) => Enter(s, id, GateEventTenant(q.call, q.ctx, e, row, s.db))
    case Sweeping(now) => if SweepFree(s, now) then SetPhase(s, id, Swept(now)).(db := Sweep(s.db, now)) else s
    case ReadBack(k) => SetPhase(s, id, Done(ReadBackReply(k, s.db)))
    case Swept(now) =>
      if !q.call.StartTenantRegistration? then s
      else
        (match ExecRegister(s.db, q.call.newId, NewTenantRow(c, q.call, now))
         case Refused(e) => SetPhase(s, id, Done(Failure(e)))
         case Committed(db') => SetPhase(s, id, Done(Success)).(db := db'))
    case Run(_, _, _, _, _) => ActRun(c, s, id)
    case Done(_) => s
  }

  ghost function Next(c: Config, s: State, l: Label): State {
    match l
    case Arrive(id, call, ctx) => if id in s.reqs then s else s.(reqs := s.reqs[id := Req(call, ctx, Start)])
    case Tick(amount) => s.(clock := s.clock + amount)
    case Take(id, lock) =>
      if id in s.reqs && s.reqs[id].phase.Run? then
        var Run(x, st, seen, held, pending) := s.reqs[id].phase;
        if lock in Wants(c, x, st, seen, held, s.db) && Free(s, id, lock)
        then SetPhase(s, id, Run(x, st, seen, held + {lock}, pending)) else s
      else s
    case Act(id) => if id in s.reqs then ActStep(c, s, id) else s
    case Abort(id) => if id in s.reqs && !s.reqs[id].phase.Done? then SetPhase(s, id, Done(Failure(TransactionAborted))) else s
  }

  function Init(clock: int): State { State(EmptyDb, map[], clock) }

  /** The state a schedule leads to. */
  ghost function After(c: Config, s: State, ls: seq<Label>): State
    decreases |ls|
  {
    if ls == [] then s else After(c, Next(c, s, ls[0]), ls[1..])
  }
}

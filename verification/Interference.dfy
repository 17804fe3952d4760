/** Why requests do not disturb each other: every commit changes only what its own locks cover, and
    what a request relies on is covered by locks that clash with those. */
module Interference {
  import opened Domain
  import opened Subdomains
  import opened TenantContext
  import opened Tables
  import opened AtomicLaws
  import opened Machine
  import opened Invariant

  // ---------------------------------------------------------------- changes covered by locks

  predicate MemberChangeCovered(k: MemberKey, ms: map<MemberKey, Member>, ms': map<MemberKey, Member>, held: set<Lock>) {
    if k in ms && k in ms' then ms[k] == ms'[k] || Lock(MemberRow(k), NoKeyUpdate) in held
    else if k in ms then Lock(MemberRow(k), ForUpdate) in held
    else k in ms' ==> Lock(MemberSlot(k), ForUpdate) in held
  }

  ghost predicate MembersCovered(ms: map<MemberKey, Member>, ms': map<MemberKey, Member>, held: set<Lock>) {
    forall k :: MemberChangeCovered(k, ms, ms', held)
  }

  /** An owner is lost only under the advisory lock of the tenant. */
  ghost predicate OwnersCovered(c: Config, ms: map<MemberKey, Member>, ms': map<MemberKey, Member>, held: set<Lock>) {
    forall t, u :: OwnerIn(ms, t, u) && !OwnerIn(ms', t, u) ==> HoldsAdvisory(c, t, held)
  }

  ghost predicate TenantsCovered(ts: map<Id, Tenant>, ts': map<Id, Tenant>, held: set<Lock>) {
    forall t :: t in ts ==> t in ts' && (ts'[t] == ts[t] || Lock(TenantRow(t), ForUpdate) in held)
  }

  ghost predicate SubdomainsCovered(ts: map<Id, Tenant>, ts': map<Id, Tenant>, held: set<Lock>) {
    forall t :: t in ts' && ts'[t].subdomain.Some? && !(t in ts && ts[t].subdomain == ts'[t].subdomain) ==>
                  Lock(SubdomainSlot(ts'[t].subdomain.value), ForUpdate) in held
  }

  ghost predicate EventsCovered(es: map<Id, Event>, es': map<Id, Event>, held: set<Lock>) {
    forall e :: e in es' && e !in es ==>
      Lock(EventSlot(e), ForUpdate) in held && Lock(EventPublicSlot(es'[e].publicId), ForUpdate) in held
  }

  ghost predicate RolesCovered(c: Config, rs: map<RoleKey, EventRole>, rs': map<RoleKey, EventRole>, held: set<Lock>) {
    forall k :: k in rs && k !in rs' ==> Lock(RoleSlot(k), ForUpdate) in held || HoldsAdvisory(c, rs[k].tenantId, held)
  }

  predicate InvitationSlotsHeld(i: Id, row: Invitation, held: set<Lock>) {
    Lock(InvitationSlot(i), ForUpdate) in held && Lock(InvitationPublicSlot(row.publicId), ForUpdate) in held &&
    Lock(TokenSlot(row.tokenHash), ForUpdate) in held
  }

  ghost predicate InvitationsCovered(ns: map<Id, Invitation>, ns': map<Id, Invitation>, held: set<Lock>) {
    (forall i :: i in ns ==> i in ns' && (ns'[i] == ns[i] || Lock(InvitationRow(i), ForUpdate) in held)) &&
    (forall i :: i in ns' && i !in ns ==> InvitationSlotsHeld(i, ns'[i], held))
  }

  /** Every difference between the two states lies under one of the locks held. */
  ghost predicate Covered(c: Config, db: Db, db': Db, held: set<Lock>) {
    MembersCovered(db.members, db'.members, held) && OwnersCovered(c, db.members, db'.members, held) &&
    TenantsCovered(db.tenants, db'.tenants, held) && SubdomainsCovered(db.tenants, db'.tenants, held) &&
    EventsCovered(db.events, db'.events, held) && RolesCovered(c, db.eventRoles, db'.eventRoles, held) &&
    InvitationsCovered(db.invitations, db'.invitations, held)
  }

  // ---------------------------------------------------------------- every commit is covered

  /** Two writes unfold one after the other. */
  lemma ApplyTwo(a: Write, b: Write, db: Db)
    ensures ApplyAll([a], db) == Apply(a, db)
    ensures ApplyAll([a, b], db) == Apply(b, Apply(a, db))
  {
    assert [a][1..] == [] && [a, b][1..] == [b];
    assert ApplyAll([a, b], db) == ApplyAll([b], Apply(a, db));
    assert ApplyAll([b], Apply(a, db)) == ApplyAll([b][1..], Apply(b, Apply(a, db)));
  }

  /** A table that stays the same is covered. */
  lemma SameTables(c: Config, db: Db, db': Db, held: set<Lock>)
    ensures db'.members == db.members ==> MembersCovered(db.members, db'.members, held) && OwnersCovered(c, db.members, db'.members, held)
    ensures db'.tenants == db.tenants ==> TenantsCovered(db.tenants, db'.tenants, held) && SubdomainsCovered(db.tenants, db'.tenants, held)
    ensures db'.events == db.events ==> EventsCovered(db.events, db'.events, held)
    ensures db'.eventRoles == db.eventRoles ==> RolesCovered(c, db.eventRoles, db'.eventRoles, held)
    ensures db'.invitations == db.invitations ==> InvitationsCovered(db.invitations, db'.invitations, held)
  {
  }

  lemma TenantPutCovered(ts: map<Id, Tenant>, t: Id, row: Tenant, held: set<Lock>)
    requires t in ts && Lock(TenantRow(t), ForUpdate) in held
    requires row.subdomain == ts[t].subdomain || (row.subdomain.Some? && Lock(SubdomainSlot(row.subdomain.value), ForUpdate) in held)
    ensures TenantsCovered(ts, ts[t := row], held) && SubdomainsCovered(ts, ts[t := row], held)
  {
  }

  lemma ChangeRoleCovered(c: Config, db: Db, x: Txn, held: set<Lock>, pending: seq<Write>)
    requires x.ChangeRole? && GuardedReady(db, x, held, pending) && HoldsAdvisory(c, x.tenant, held)
    ensures Covered(c, db, ApplyAll(pending, db), held)
  {
    hide WithoutMember, TenantsCovered, SubdomainsCovered, EventsCovered, RolesCovered, InvitationsCovered;
    ApplyTwo(pending[0], pending[0], db);
    assert pending == [pending[0]];
    SameTables(c, db, ApplyAll(pending, db), held);
  }

  lemma RoleWriteCovered(c: Config, db: Db, x: Txn, held: set<Lock>, pending: seq<Write>)
    requires (x.GrantRole? || x.RevokeEventRole?) && GuardedReady(db, x, held, pending)
    ensures Covered(c, db, ApplyAll(pending, db), held)
  {
    hide WithoutMember, MembersCovered, OwnersCovered, TenantsCovered, SubdomainsCovered, EventsCovered,
         InvitationsCovered;
    ApplyTwo(pending[0], pending[0], db);
    assert pending == [pending[0]];
    SameTables(c, db, ApplyAll(pending, db), held);
  }

  lemma InviteCovered(c: Config, db: Db, x: Txn, held: set<Lock>, pending: seq<Write>)
    requires x.Invite? && GuardedReady(db, x, held, pending)
    ensures Covered(c, db, ApplyAll(pending, db), held)
  {
    hide WithoutMember, MembersCovered, OwnersCovered, TenantsCovered, SubdomainsCovered, EventsCovered,
         RolesCovered;
    ApplyTwo(pending[0], pending[0], db);
    assert pending == [pending[0]];
    SameTables(c, db, ApplyAll(pending, db), held);
  }

  lemma GuardedCovered(c: Config, db: Db, x: Txn, seen: Seen, held: set<Lock>, pending: seq<Write>)
    requires Guarded(x) && GuardedOk(c, db, x, CommitPoint, seen, held, pending)
    ensures Covered(c, db, ApplyAll(pending, db), held)
  {
    hide MayWrite, HasOtherOwner, WithoutMember, Covered;
    if x.RevokeMember? {
      ApplyTwo(pending[0], pending[0], db);
      assert pending == [pending[0]];
      DropCovered(c, db, MemberKey(x.tenant, x.user), held);
    } else if x.ChangeRole? {
      ChangeRoleCovered(c, db, x, held, pending);
    } else if x.Invite? {
      InviteCovered(c, db, x, held, pending);
    } else {
      RoleWriteCovered(c, db, x, held, pending);
    }
  }

  lemma DropCovered(c: Config, db: Db, k: MemberKey, held: set<Lock>)
    requires Lock(MemberRow(k), ForUpdate) in held && HoldsAdvisory(c, k.tenant, held)
    ensures Covered(c, db, WithoutMember(db, k.tenant, k.user), held)
  {
    assert k == MemberKey(k.tenant, k.user);
  }

  lemma RevokeInviteCovered(c: Config, db: Db, x: Txn, seen: Seen, held: set<Lock>, pending: seq<Write>)
    requires x.RevokeInvite? && RevokeInviteOk(db, x, CommitPoint, seen, held, pending)
    ensures Covered(c, db, ApplyAll(pending, db), held)
  {
    hide InvitationOpen, WithoutMember, MembersCovered, OwnersCovered, TenantsCovered, SubdomainsCovered,
         EventsCovered, RolesCovered;
    ApplyTwo(pending[0], pending[0], db);
    assert pending == [pending[0]];
    SameTables(c, db, ApplyAll(pending, db), held);
  }

  lemma AddMemberCovered(c: Config, db: Db, x: Txn, seen: Seen, held: set<Lock>, pending: seq<Write>)
    requires x.AddMember? && AddMemberOk(db, x, CommitPoint, seen, held, pending)
    ensures Covered(c, db, ApplyAll(pending, db), held)
  {
    hide WithoutMember, TenantsCovered, SubdomainsCovered, EventsCovered, RolesCovered, InvitationsCovered;
    ApplyTwo(pending[0], pending[0], db);
    assert pending == [pending[0]];
    SameTables(c, db, ApplyAll(pending, db), held);
  }

  lemma SetStatusCovered(c: Config, db: Db, x: Txn, seen: Seen, held: set<Lock>, pending: seq<Write>)
    requires x.SetStatus? && SetStatusOk(db, x, CommitPoint, seen, held, pending)
    ensures Covered(c, db, ApplyAll(pending, db), held)
  {
    hide WithoutMember, MembersCovered, OwnersCovered, TenantsCovered, SubdomainsCovered, RolesCovered,
         InvitationsCovered;
    ApplyTwo(pending[0], pending[0], db);
    assert pending == [pending[0]];
    SameTables(c, db, ApplyAll(pending, db), held);
  }

  lemma AdminCovered(c: Config, db: Db, x: Txn, seen: Seen, held: set<Lock>, pending: seq<Write>)
    requires Administers(x) && AdminOk(db, x, CommitPoint, seen, held, pending)
    ensures Covered(c, db, ApplyAll(pending, db), held)
  {
    hide MayWrite, WithoutMember, TenantsCovered, SubdomainsCovered, MembersCovered, OwnersCovered, EventsCovered,
         RolesCovered, InvitationsCovered;
    ApplyTwo(pending[0], pending[0], db);
    assert pending == [pending[0]];
    SameTables(c, db, ApplyAll(pending, db), held);
    TenantPutCovered(db.tenants, seen.tenantId, ApplyAll(pending, db).tenants[seen.tenantId], held);
  }

  lemma AcceptCovered(c: Config, db: Db, x: Txn, seen: Seen, held: set<Lock>, pending: seq<Write>)
    requires x.AcceptInvite? && AcceptOk(c, db, x, CommitPoint, seen, held, pending)
    ensures Covered(c, db, ApplyAll(pending, db), held)
  {
    hide WithoutMember, TenantsCovered, SubdomainsCovered, EventsCovered, RolesCovered;
    ApplyTwo(pending[0], pending[1], db);
    SameTables(c, db, ApplyAll(pending, db), held);
  }

  lemma ClaimCovered(c: Config, db: Db, x: Txn, seen: Seen, held: set<Lock>, pending: seq<Write>)
    requires x.ClaimTenant? && ClaimOk(db, x, CommitPoint, seen, held, pending)
    ensures Covered(c, db, ApplyAll(pending, db), held)
  {
    hide ClaimMatches, SubdomainTaken, WithoutMember, TenantsCovered, SubdomainsCovered, EventsCovered, RolesCovered,
         InvitationsCovered;
    ApplyTwo(pending[0], pending[1], db);
    SameTables(c, db, ApplyAll(pending, db), held);
    TenantPutCovered(db.tenants, seen.tenantId, ApplyAll(pending, db).tenants[seen.tenantId], held);
  }

  lemma NewEventCovered(c: Config, db: Db, x: Txn, seen: Seen, held: set<Lock>, pending: seq<Write>)
    requires x.NewEvent? && NewEventOk(db, x, CommitPoint, seen, held, pending)
    ensures Covered(c, db, ApplyAll(pending, db), held)
  {
    hide WithoutMember, MembersCovered, OwnersCovered, TenantsCovered, SubdomainsCovered, InvitationsCovered;
    ApplyTwo(pending[0], pending[1], db);
    SameTables(c, db, ApplyAll(pending, db), held);
  }

  /** Every commit changes only what its own locks cover. */
  lemma CommitCovered(c: Config, db: Db, x: Txn, seen: Seen, held: set<Lock>, pending: seq<Write>)
    requires DbOk(db) && ParamsOk(db, x) && StageOk(c, db, x, CommitPoint, seen, held, pending)
    ensures Covered(c, db, ApplyAll(pending, db), held)
  {
    hide DbOk, ParamsOk, GuardedOk, AcceptOk, ClaimOk, AdminOk, NewEventOk, SetStatusOk, AddMemberOk, RevokeInviteOk,
         Covered;
    if Guarded(x) { GuardedCovered(c, db, x, seen, held, pending); }
    else if x.AcceptInvite? { AcceptCovered(c, db, x, seen, held, pending); }
    else if x.ClaimTenant? { ClaimCovered(c, db, x, seen, held, pending); }
    else if x.NewEvent? { NewEventCovered(c, db, x, seen, held, pending); }
    else if Administers(x) { AdminCovered(c, db, x, seen, held, pending); }
    else if x.RevokeInvite? { RevokeInviteCovered(c, db, x, seen, held, pending); }
    else if x.AddMember? { AddMemberCovered(c, db, x, seen, held, pending); }
    else { SetStatusCovered(c, db, x, seen, held, pending); }
  }

  // ---------------------------------------------------------------- what is relied on is stable

  /** A covered change made under locks compatible with one's own. */
  ghost predicate Elsewhere(c: Config, db: Db, db': Db, theirs: set<Lock>, mine: set<Lock>) {
    Covered(c, db, db', theirs) && Forward(db, db') && Compatible(theirs, mine)
  }

  lemma MemberStable(c: Config, db: Db, db': Db, theirs: set<Lock>, mine: set<Lock>, k: MemberKey, m: Mode)
    requires Elsewhere(c, db, db', theirs, mine) && k in db.members && Lock(MemberRow(k), m) in mine
    ensures k in db'.members && (m != KeyShare ==> db'.members[k] == db.members[k])
  {
    assert MemberChangeCovered(k, db.members, db'.members, theirs);
  }

  lemma SlotStable(c: Config, db: Db, db': Db, theirs: set<Lock>, mine: set<Lock>, k: MemberKey)
    requires Elsewhere(c, db, db', theirs, mine) && k !in db.members && Lock(MemberSlot(k), ForUpdate) in mine
    ensures k !in db'.members
  {
    assert MemberChangeCovered(k, db.members, db'.members, theirs);
  }

  /** After the last-owner check, and until the holder of the advisory lock writes, an owner other
      than the target stays committed, whoever else commits what. */
  lemma OtherOwnerStable(c: Config, db: Db, db': Db, theirs: set<Lock>, mine: set<Lock>, t: Id, u: Id)
    requires Elsewhere(c, db, db', theirs, mine) && HoldsAdvisory(c, t, mine) && HasOtherOwner(db.members, t, u)
    ensures HasOtherOwner(db'.members, t, u)
  {
    var v :| v != u && OwnerIn(db.members, t, v);
    assert OwnerIn(db'.members, t, v);
  }

  lemma InviteStable(c: Config, db: Db, db': Db, theirs: set<Lock>, mine: set<Lock>, seen: Seen)
    requires Elsewhere(c, db, db', theirs, mine) && InviteHeld(db, seen, mine)
    ensures InviteHeld(db', seen, mine)
  {
  }

  lemma TenantStable(c: Config, db: Db, db': Db, theirs: set<Lock>, mine: set<Lock>, seen: Seen, p: Id)
    requires Elsewhere(c, db, db', theirs, mine) && TenantHeld(db, seen, p, mine)
    ensures TenantHeld(db', seen, p, mine)
  {
  }

  lemma SubdomainStable(c: Config, db: Db, db': Db, theirs: set<Lock>, mine: set<Lock>, s: string)
    requires Elsewhere(c, db, db', theirs, mine) && !SubdomainTaken(db, s) && Lock(SubdomainSlot(s), ForUpdate) in mine
    ensures !SubdomainTaken(db', s)
  {
  }

  lemma EventSlotsStable(c: Config, db: Db, db': Db, theirs: set<Lock>, mine: set<Lock>, e: Id, p: Id)
    requires Elsewhere(c, db, db', theirs, mine)
    requires e !in db.events && Lock(EventSlot(e), ForUpdate) in mine
    requires !EventPublicIdTaken(db, p) && Lock(EventPublicSlot(p), ForUpdate) in mine
    ensures e !in db'.events && !EventPublicIdTaken(db', p)
  {
  }

  /** What one request holds exclusively, no other holds. */
  lemma HeldByOne(theirs: set<Lock>, mine: set<Lock>, t: Machine.Target)
    requires Compatible(theirs, mine) && Lock(t, ForUpdate) in mine
    ensures Lock(t, ForUpdate) !in theirs
  {
    assert Clash(Lock(t, ForUpdate), Lock(t, ForUpdate));
  }

  lemma InviteSlotsStable(c: Config, db: Db, db': Db, theirs: set<Lock>, mine: set<Lock>, i: Id, p: Id, h: Hash)
    requires Elsewhere(c, db, db', theirs, mine)
    requires i !in db.invitations && Lock(InvitationSlot(i), ForUpdate) in mine
    requires !InvitationPublicIdTaken(db, p) && Lock(InvitationPublicSlot(p), ForUpdate) in mine
    requires !TokenTaken(db, h) && Lock(TokenSlot(h), ForUpdate) in mine
    ensures i !in db'.invitations && !InvitationPublicIdTaken(db', p) && !TokenTaken(db', h)
  {
    hide MembersCovered, OwnersCovered, TenantsCovered, SubdomainsCovered, EventsCovered, RolesCovered,
         TenantsForward, EventsForward, Compatible;
    HeldByOne(theirs, mine, InvitationSlot(i));
    HeldByOne(theirs, mine, InvitationPublicSlot(p));
    HeldByOne(theirs, mine, TokenSlot(h));
    NewInvitations(db.invitations, db'.invitations, theirs);
  }

  /** Every invitation is one that was there, under the same keys, or occupies its slots. */
  lemma NewInvitations(ns: map<Id, Invitation>, ns': map<Id, Invitation>, held: set<Lock>)
    requires InvitationsCovered(ns, ns', held) && InvitationsForward(ns, ns')
    ensures forall j :: j in ns' ==>
              (j in ns && ns'[j].publicId == ns[j].publicId && ns'[j].tokenHash == ns[j].tokenHash) || InvitationSlotsHeld(j, ns'[j], held)
  {
    forall j | j in ns' && j in ns ensures ns'[j].publicId == ns[j].publicId && ns'[j].tokenHash == ns[j].tokenHash {
      assert InvitationForward(ns[j], ns'[j]);
    }
  }

  lemma RoleStable(c: Config, db: Db, db': Db, theirs: set<Lock>, mine: set<Lock>, k: RoleKey)
    requires Elsewhere(c, db, db', theirs, mine) && k in db.eventRoles && Lock(RoleSlot(k), ForUpdate) in mine
    requires HoldsAdvisory(c, db.eventRoles[k].tenantId, mine)
    ensures k in db'.eventRoles
  {
  }

  lemma ParamsStable(db: Db, db': Db, x: Txn)
    requires Forward(db, db') && ParamsOk(db, x)
    ensures ParamsOk(db', x)
  {
  }

  lemma CallerStable(c: Config, db: Db, db': Db, theirs: set<Lock>, mine: set<Lock>, t: Id, caller: Option<Id>)
    requires Elsewhere(c, db, db', theirs, mine) && CallerOk(db, t, caller, mine)
    ensures CallerOk(db', t, caller, mine)
  {
    MemberStable(c, db, db', theirs, mine, MemberKey(t, caller.value), Share);
  }

  lemma GuardedStable(c: Config, db: Db, db': Db, theirs: set<Lock>, x: Txn, st: Stage, seen: Seen,
      held: set<Lock>, pending: seq<Write>)
    requires Guarded(x) && DbOk(db) && Elsewhere(c, db, db', theirs, held)
    requires ParamsOk(db, x) && GuardedOk(c, db, x, st, seen, held, pending)
    ensures GuardedOk(c, db', x, st, seen, held, pending)
  {
    hide DbOk, Elsewhere, Covered;
    if st in {KeepTarget, CountOwners, Mutate, CommitPoint} { CallerStable(c, db, db', theirs, held, x.tenant, x.caller); }
    if st == CountOwners { MemberStable(c, db, db', theirs, held, MemberKey(x.tenant, x.user), Share); }
    if ChecksLastOwner(x) && st in {Mutate, CommitPoint} { OtherOwnerStable(c, db, db', theirs, held, x.tenant, x.user); }
    if st == CommitPoint {
      match x
      case ChangeRole(t, _, u, _) => MemberStable(c, db, db', theirs, held, MemberKey(t, u), NoKeyUpdate);
      case RevokeMember(t, _, u) => MemberStable(c, db, db', theirs, held, MemberKey(t, u), ForUpdate);
      case GrantRole(t, _, _, u, _) => MemberStable(c, db, db', theirs, held, MemberKey(t, u), KeyShare);
      case RevokeEventRole(_, _, e, u) =>
        RoleHome(db, RoleKey(e, u));
        RoleStable(c, db, db', theirs, held, RoleKey(e, u));
      case Invite(_, _, id, row) => InviteSlotsStable(c, db, db', theirs, held, id, row.publicId, row.tokenHash);
    }
  }

  lemma TenantSideStable(c: Config, db: Db, db': Db, theirs: set<Lock>, x: Txn, st: Stage, seen: Seen,
      held: set<Lock>, pending: seq<Write>)
    requires x.ClaimTenant? || Administers(x) || x.NewEvent?
    requires Elsewhere(c, db, db', theirs, held) && StageOk(c, db, x, st, seen, held, pending)
    ensures StageOk(c, db', x, st, seen, held, pending)
  {
    hide Elsewhere, Covered;
    if x.NewEvent? {
      if st != Authorize { MemberStable(c, db, db', theirs, held, MemberKey(x.tenant, x.subject), Share); }
      if st in {GrantCreator, CommitPoint} { EventSlotsStable(c, db, db', theirs, held, x.id, x.draft.publicId); }
    } else if st != LockTenant {
      TenantStable(c, db, db', theirs, held, seen, x.publicId);
      if x.ClaimTenant? {
        if st in {MarkOwned, CommitPoint} { SlotStable(c, db, db', theirs, held, MemberKey(seen.tenantId, x.subject)); }
        if st == CommitPoint { SubdomainStable(c, db, db', theirs, held, x.subdomain); }
      } else if st in {Mutate, CommitPoint} {
        CallerStable(c, db, db', theirs, held, seen.tenantId, x.caller);
      }
    }
  }

  lemma InviteSideStable(c: Config, db: Db, db': Db, theirs: set<Lock>, x: Txn, st: Stage, seen: Seen,
      held: set<Lock>, pending: seq<Write>)
    requires x.AcceptInvite? || x.RevokeInvite? || x.AddMember? || x.SetStatus?
    requires Elsewhere(c, db, db', theirs, held) && StageOk(c, db, x, st, seen, held, pending)
    ensures StageOk(c, db', x, st, seen, held, pending)
  {
    hide Elsewhere, Covered;
    if x.AcceptInvite? {
      if st in {InsertMember, CloseInvite, CommitPoint} { InviteStable(c, db, db', theirs, held, seen); }
      if st in {CloseInvite, CommitPoint} { SlotStable(c, db, db', theirs, held, MemberKey(x.tenant, x.subject)); }
    } else if x.RevokeInvite? {
      if st != FindInvite { InviteStable(c, db, db', theirs, held, seen); }
    } else if x.AddMember? && st == CommitPoint {
      SlotStable(c, db, db', theirs, held, MemberKey(x.tenant, x.user));
    }
  }

  /** What a request relies on survives every commit of another request. */
  lemma StageStable(c: Config, db: Db, db': Db, theirs: set<Lock>, x: Txn, st: Stage, seen: Seen, held: set<Lock>,
      pending: seq<Write>)
    requires DbOk(db) && Elsewhere(c, db, db', theirs, held)
    requires ParamsOk(db, x) && StageOk(c, db, x, st, seen, held, pending)
    ensures ParamsOk(db', x) && StageOk(c, db', x, st, seen, held, pending)
  {
    hide DbOk, Covered, GuardedOk, AcceptOk, ClaimOk, AdminOk, NewEventOk, SetStatusOk, AddMemberOk, RevokeInviteOk;
    ParamsStable(db, db', x);
    hide ParamsOk, Forward;
    if Guarded(x) { GuardedStable(c, db, db', theirs, x, st, seen, held, pending); }
    else if x.ClaimTenant? || Administers(x) || x.NewEvent? { TenantSideStable(c, db, db', theirs, x, st, seen, held, pending); }
    else { InviteSideStable(c, db, db', theirs, x, st, seen, held, pending); }
  }
}

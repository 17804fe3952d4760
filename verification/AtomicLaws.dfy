/** Laws of the one-at-a-time meaning: what every committed transaction keeps, how rows may
    change over time, and which tenant a transaction may change. */
module AtomicLaws {
  import opened Domain
  import opened Subdomains
  import opened Tables

  // ---------------------------------------------------------------- the last-owner rule

  lemma OwnersMeaning(db: Db, t: Id, u: Id)
    ensures u in Owners(db, t) <==> IsOwner(db, t, u)
  {
    if IsOwner(db, t, u) { assert MemberKey(t, u).user == u; }
  }

  lemma SmallSet(s: set<Id>, u: Id)
    requires u in s
    ensures |s| <= 1 <==> s == {u}
  {
    assert |s - {u}| == |s| - 1;
    if |s| <= 1 { assert s - {u} == {}; }
  }

  /** ErrLastOwner is returned exactly when the target is the sole owner; and in a tenant that has
      an owner at all, passing the check means that an owner other than the target exists,
      whatever the target is at that moment. */
  lemma LastOwnerRule(db: Db, t: Id, u: Id)
    ensures KeepAnotherOwner(db, t, u) == Some(LastOwner) <==> Owners(db, t) == {u}
    ensures HasOwner(db.members, t) ==> (KeepAnotherOwner(db, t, u) == None <==> HasOtherOwner(db.members, t, u))
  {
    forall v ensures v in Owners(db, t) <==> IsOwner(db, t, v) { OwnersMeaning(db, t, v); }
    if IsOwner(db, t, u) {
      SmallSet(Owners(db, t), u);
      if HasOtherOwner(db.members, t, u) {
        var v :| v != u && OwnerIn(db.members, t, v);
        assert v in Owners(db, t);
      } else {
        assert Owners(db, t) == {u};
      }
    } else if HasOwner(db.members, t) {
      var v :| OwnerIn(db.members, t, v);
    }
  }

  // ---------------------------------------------------------------- forward-only change

  predicate SameEvent(e: Event, e': Event) { e'.(status := e.status) == e }

  predicate InvitationForward(i: Invitation, i': Invitation) {
    i'.(accepted := i.accepted, revoked := i.revoked) == i && (StateOf(i) != InvitationPending ==> i' == i)
  }

  predicate TenantForward(t: Tenant, t': Tenant) {
    t'.ownership == Owned && t'.publicId == t.publicId && t'.name == t.name && t'.subdomain == t.subdomain &&
    (t.archived ==> t'.archived)
  }

  ghost predicate TenantsForward(ts: map<Id, Tenant>, ts': map<Id, Tenant>) {
    forall id :: OwnedIn(ts, id) ==> id in ts' && TenantForward(ts[id], ts'[id])
  }

  ghost predicate EventsForward(es: map<Id, Event>, es': map<Id, Event>) {
    forall id :: id in es ==> id in es' && SameEvent(es[id], es'[id])
  }

  ghost predicate InvitationsForward(ns: map<Id, Invitation>, ns': map<Id, Invitation>) {
    forall id :: id in ns ==> id in ns' && InvitationForward(ns[id], ns'[id])
  }

  /** How the rows of a later state relate to those of an earlier one: owned tenants stay, with
      their identity, name and subdomain, and never leave the archive; events stay, in their tenant;
      invitations stay, and a closed one never changes again. */
  ghost predicate Forward(db: Db, db': Db) {
    TenantsForward(db.tenants, db'.tenants) && EventsForward(db.events, db'.events) &&
    InvitationsForward(db.invitations, db'.invitations)
  }

  lemma ForwardTrans(a: Db, b: Db, c: Db)
    requires Forward(a, b) && Forward(b, c)
    ensures Forward(a, c)
  {
  }

  // ---------------------------------------------------------------- one tenant at a time

  predicate AgreeTenant(ts: map<Id, Tenant>, ts': map<Id, Tenant>, t: Id) {
    (t in ts <==> t in ts') && (t in ts ==> ts[t] == ts'[t])
  }

  predicate EventOf(es: map<Id, Event>, t: Id, id: Id) { id in es && es[id].tenantId == t }
  ghost predicate AgreeEvents(es: map<Id, Event>, es': map<Id, Event>, t: Id) {
    forall id :: (EventOf(es, t, id) <==> EventOf(es', t, id)) && (EventOf(es, t, id) ==> es[id] == es'[id])
  }

  ghost predicate AgreeMembers(ms: map<MemberKey, Member>, ms': map<MemberKey, Member>, t: Id) {
    forall k: MemberKey :: k.tenant == t ==> (k in ms <==> k in ms') && (k in ms ==> ms[k] == ms'[k])
  }

  predicate RoleOf(rs: map<RoleKey, EventRole>, t: Id, k: RoleKey) { k in rs && rs[k].tenantId == t }
  ghost predicate AgreeRoles(rs: map<RoleKey, EventRole>, rs': map<RoleKey, EventRole>, t: Id) {
    forall k :: (RoleOf(rs, t, k) <==> RoleOf(rs', t, k)) && (RoleOf(rs, t, k) ==> rs[k] == rs'[k])
  }

  predicate InvitationOf(ns: map<Id, Invitation>, t: Id, id: Id) { id in ns && ns[id].tenantId == t }
  ghost predicate AgreeInvitations(ns: map<Id, Invitation>, ns': map<Id, Invitation>, t: Id) {
    forall id :: (InvitationOf(ns, t, id) <==> InvitationOf(ns', t, id)) && (InvitationOf(ns, t, id) ==> ns[id] == ns'[id])
  }

  /** The rows of tenant t are the same in both states, in every table. */
  ghost predicate Agree(db: Db, db': Db, t: Id) {
    AgreeTenant(db.tenants, db'.tenants, t) && AgreeEvents(db.events, db'.events, t) &&
    AgreeMembers(db.members, db'.members, t) && AgreeRoles(db.eventRoles, db'.eventRoles, t) &&
    AgreeInvitations(db.invitations, db'.invitations, t)
  }

  lemma AgreeTrans(a: Db, b: Db, c: Db, t: Id)
    requires Agree(a, b, t) && Agree(b, c, t)
    ensures Agree(a, c, t)
  {
  }

  /** The tenant whose rows a transaction may change. */
  ghost function TargetOf(x: Txn, db: Db): Option<Id> {
    match x
    case ClaimTenant(p, _, _, _, _, _) => TenantByPublicId(db, p)
    case ChangePlan(p, _, _) => TenantByPublicId(db, p)
    case ArchiveTenant(p, _) => TenantByPublicId(db, p)
    case SetStatus(e, _, _) => if e in db.events then Some(db.events[e].tenantId) else None
    case _ => Some(x.tenant)
  }

  /** What a committed transaction on tenant t keeps. */
  ghost predicate Keeps(t: Id, db: Db, db': Db) {
    DbOk(db') && Forward(db, db') && forall a :: a != t ==> Agree(db, db', a)
  }

  // What the constraints say of one row.

  lemma TenantHome(db: Db, t: Id)
    requires DbOk(db) && t in db.tenants
    ensures TenantRowOk(db.tenants[t])
  {
  }

  lemma OwnerOfOwned(db: Db, t: Id)
    requires DbOk(db) && OwnedTenant(db, t)
    ensures HasOwner(db.members, t)
  {
  }

  lemma MemberHome(db: Db, k: MemberKey)
    requires DbOk(db) && k in db.members
    ensures MemberRowOk(db.members[k]) && OwnedTenant(db, k.tenant)
  {
  }

  lemma EventHome(db: Db, e: Id)
    requires DbOk(db) && e in db.events
    ensures OwnedTenant(db, db.events[e].tenantId) && db.events[e].tenantPublicId == db.tenants[db.events[e].tenantId].publicId
  {
  }

  lemma RoleHome(db: Db, k: RoleKey)
    requires DbOk(db) && k in db.eventRoles
    ensures RoleRef(db.events, db.members, k, db.eventRoles[k])
  {
  }

  lemma InvitationHome(db: Db, id: Id)
    requires DbOk(db) && id in db.invitations
    ensures InvitationRowOk(db.invitations[id]) && OwnedTenant(db, db.invitations[id].tenantId)
  {
  }

  // Table by table: each single-row change and the constraints it meets.

  lemma MemberPut(ts: map<Id, Tenant>, es: map<Id, Event>, ms: map<MemberKey, Member>, rs: map<RoleKey, EventRole>,
      k: MemberKey, m: Member)
    requires MemberRows(ms) && MemberRefs(ts, ms) && RoleRefs(es, ms, rs) && MemberRowOk(m) && OwnedIn(ts, k.tenant)
    ensures var ms' := ms[k := m];
            MemberRows(ms') && MemberRefs(ts, ms') && RoleRefs(es, ms', rs) &&
            forall a :: a != k.tenant ==> AgreeMembers(ms, ms', a)
  {
  }

  /** If the owners of every tenant but t are untouched and t still has one, all tenants have one. */
  lemma OwnersKept(ts: map<Id, Tenant>, ms: map<MemberKey, Member>, ts': map<Id, Tenant>, ms': map<MemberKey, Member>, t: Id)
    requires OwnersOk(ts, ms) && HasOwner(ms', t)
    requires forall a :: a != t && OwnedIn(ts', a) ==> OwnedIn(ts, a)
    requires forall a, u :: a != t && OwnerIn(ms, a, u) ==> OwnerIn(ms', a, u)
    ensures OwnersOk(ts', ms')
  {
    forall a | OwnedIn(ts', a) ensures HasOwner(ms', a) {
      if a != t {
        var u :| OwnerIn(ms, a, u);
        assert OwnerIn(ms', a, u);
      }
    }
  }

  /** A new membership takes no owner away. */
  lemma NewMemberKeepsOwners(ts: map<Id, Tenant>, ms: map<MemberKey, Member>, k: MemberKey, m: Member)
    requires OwnersOk(ts, ms) && k !in ms
    ensures OwnersOk(ts, ms[k := m])
  {
    forall a | OwnedIn(ts, a) ensures HasOwner(ms[k := m], a) {
      var u :| OwnerIn(ms, a, u);
      assert OwnerIn(ms[k := m], a, u);
    }
  }

  lemma TenantPut(ts: map<Id, Tenant>, es: map<Id, Event>, ms: map<MemberKey, Member>, ns: map<Id, Invitation>,
      t: Id, row: Tenant)
    requires TenantRows(ts) && UniqueTenants(ts) && EventRefs(ts, es) && MemberRefs(ts, ms) && InvitationRefs(ts, ns)
    requires TenantRowOk(row) && row.ownership == Owned && t in ts && row.publicId == ts[t].publicId && row.name == ts[t].name
    requires ts[t].ownership == Owned ==> row.subdomain == ts[t].subdomain && (ts[t].archived ==> row.archived)
    requires row.subdomain != ts[t].subdomain ==> forall a :: a in ts ==> ts[a].subdomain != row.subdomain
    ensures var ts' := ts[t := row];
            TenantRows(ts') && UniqueTenants(ts') && EventRefs(ts', es) && MemberRefs(ts', ms) && InvitationRefs(ts', ns) &&
            TenantsForward(ts, ts') && forall a :: a != t ==> AgreeTenant(ts, ts', a)
  {
    hide UniqueTenants, TenantRowOk;
    UniqueTenantsPut(ts, t, row);
  }

  lemma UniqueTenantsPut(ts: map<Id, Tenant>, t: Id, row: Tenant)
    requires UniqueTenants(ts)
    requires t in ts ==> row.publicId == ts[t].publicId
    requires t !in ts ==> forall a :: a in ts ==> ts[a].publicId != row.publicId
    requires row.subdomain.Some? && (t in ts ==> row.subdomain != ts[t].subdomain) ==>
               forall a :: a in ts ==> ts[a].subdomain != row.subdomain
    ensures UniqueTenants(ts[t := row])
  {
  }

  lemma EventPut(ts: map<Id, Tenant>, es: map<Id, Event>, ms: map<MemberKey, Member>, rs: map<RoleKey, EventRole>,
      e: Id, row: Event)
    requires EventRows(es) && UniqueEvents(es) && EventRefs(ts, es) && RoleRefs(es, ms, rs)
    requires row.status != StatusUnspecified && OwnedIn(ts, row.tenantId) && ts[row.tenantId].publicId == row.tenantPublicId
    requires if e in es then SameEvent(es[e], row) else forall a :: a in es ==> es[a].publicId != row.publicId
    ensures var es' := es[e := row];
            EventRows(es') && UniqueEvents(es') && EventRefs(ts, es') && RoleRefs(es', ms, rs) &&
            EventsForward(es, es') && forall a :: a != row.tenantId ==> AgreeEvents(es, es', a)
  {
  }

  lemma RolePut(es: map<Id, Event>, ms: map<MemberKey, Member>, rs: map<RoleKey, EventRole>, k: RoleKey, r: EventRole)
    requires RoleRows(rs) && RoleRefs(es, ms, rs) && StoredRole(r.role) && RoleRef(es, ms, k, r)
    ensures var rs' := rs[k := r];
            RoleRows(rs') && RoleRefs(es, ms, rs') && forall a :: a != r.tenantId ==> AgreeRoles(rs, rs', a)
  {
  }

  lemma InvitationPut(ts: map<Id, Tenant>, ns: map<Id, Invitation>, id: Id, row: Invitation)
    requires InvitationRows(ns) && UniqueInvitations(ns) && InvitationRefs(ts, ns)
    requires InvitationRowOk(row) && OwnedIn(ts, row.tenantId)
    requires if id in ns then InvitationForward(ns[id], row)
             else forall a :: a in ns ==> ns[a].publicId != row.publicId && ns[a].tokenHash != row.tokenHash
    ensures var ns' := ns[id := row];
            InvitationRows(ns') && UniqueInvitations(ns') && InvitationRefs(ts, ns') &&
            InvitationsForward(ns, ns') && forall a :: a != row.tenantId ==> AgreeInvitations(ns, ns', a)
  {
  }

  // Transaction by transaction.

  lemma KeepsChangeRole(db: Db, o: Obs, t: Id, caller: Option<Id>, u: Id, role: Role)
    requires DbOk(db) && OwnedTenant(db, t) && StoredRole(role)
    requires ExecChangeRole(db, t, caller, u, role).Committed?
    ensures Keeps(t, db, ExecChangeRole(db, t, caller, u, role).db)
  {
    hide TenantRows, EventRows, MemberRows, RoleRows, InvitationRows, UniqueTenants, UniqueEvents, UniqueInvitations,
         EventRefs, MemberRefs, RoleRefs, InvitationRefs, OwnersOk;
    var k := MemberKey(t, u);
    var m := db.members[k].(role := role);
    MemberHome(db, k);
    var ms' := db.members[k := m];
    OwnerOfOwned(db, t);
    LastOwnerRule(db, t, u);
    var safe :| OwnerIn(db.members, t, safe) && (role != RoleOwner ==> safe != u);
    assert OwnerIn(ms', t, safe);
    MemberPut(db.tenants, db.events, db.members, db.eventRoles, k, m);
    OwnersKept(db.tenants, db.members, db.tenants, ms', t);
  }

  lemma MemberDrop(ts: map<Id, Tenant>, es: map<Id, Event>, ms: map<MemberKey, Member>, rs: map<RoleKey,
      EventRole>, t: Id, u: Id, rs': map<RoleKey, EventRole>)
    requires MemberRows(ms) && MemberRefs(ts, ms) && RoleRefs(es, ms, rs) && RoleRows(rs)
    requires rs' == map k | k in rs && !(k.user == u && rs[k].tenantId == t) :: rs[k]
    ensures var ms' := ms - {MemberKey(t, u)};
            MemberRows(ms') && MemberRefs(ts, ms') && RoleRefs(es, ms', rs') && RoleRows(rs') &&
            forall a :: a != t ==> AgreeMembers(ms, ms', a) && AgreeRoles(rs, rs', a)
  {
  }

  lemma KeepsRevokeMember(db: Db, t: Id, caller: Option<Id>, u: Id)
    requires DbOk(db) && OwnedTenant(db, t) && ExecRevokeMember(db, t, caller, u).Committed?
    ensures Keeps(t, db, ExecRevokeMember(db, t, caller, u).db)
  {
    hide TenantRows, EventRows, MemberRows, RoleRows, InvitationRows, UniqueTenants, UniqueEvents, UniqueInvitations,
         EventRefs, MemberRefs, RoleRefs, InvitationRefs, OwnersOk;
    var db' := WithoutMember(db, t, u);
    OwnerOfOwned(db, t);
    LastOwnerRule(db, t, u);
    var safe :| OwnerIn(db.members, t, safe) && safe != u;
    assert OwnerIn(db'.members, t, safe);
    MemberDrop(db.tenants, db.events, db.members, db.eventRoles, t, u, db'.eventRoles);
    OwnersKept(db.tenants, db.members, db.tenants, db'.members, t);
  }

  lemma KeepsGrantRole(db: Db, t: Id, caller: Option<Id>, e: Id, u: Id, role: Role)
    requires DbOk(db) && StoredRole(role) && e in db.events && db.events[e].tenantId == t
    requires ExecGrantRole(db, t, caller, e, u, role).Committed?
    ensures Keeps(t, db, ExecGrantRole(db, t, caller, e, u, role).db)
  {
    hide TenantRows, EventRows, MemberRows, RoleRows, InvitationRows, UniqueTenants, UniqueEvents, UniqueInvitations,
         EventRefs, MemberRefs, RoleRefs, InvitationRefs, OwnersOk;
    if RoleKey(e, u) in db.eventRoles { RoleHome(db, RoleKey(e, u)); }
    RolePut(db.events, db.members, db.eventRoles, RoleKey(e, u), EventRole(t, role));
  }

  lemma KeepsRevokeEventRole(db: Db, t: Id, caller: Option<Id>, e: Id, u: Id)
    requires DbOk(db) && e in db.events && db.events[e].tenantId == t
    requires ExecRevokeEventRole(db, t, caller, e, u).Committed?
    ensures Keeps(t, db, ExecRevokeEventRole(db, t, caller, e, u).db)
  {
    hide TenantRows, EventRows, MemberRows, RoleRows, InvitationRows, UniqueTenants, UniqueEvents, UniqueInvitations,
         EventRefs, MemberRefs, RoleRefs, InvitationRefs, OwnersOk;
    RoleDrop(db.events, db.members, db.eventRoles, RoleKey(e, u));
  }

  lemma RoleDrop(es: map<Id, Event>, ms: map<MemberKey, Member>, rs: map<RoleKey, EventRole>, k: RoleKey)
    requires RoleRows(rs) && RoleRefs(es, ms, rs) && k in rs
    ensures RoleRows(rs - {k}) && RoleRefs(es, ms, rs - {k})
    ensures forall a :: k.event in es && a != es[k.event].tenantId ==> AgreeRoles(rs, rs - {k}, a)
  {
  }

  lemma KeepsInvite(db: Db, t: Id, caller: Option<Id>, id: Id, row: Invitation)
    requires DbOk(db) && OwnedTenant(db, t) && row.tenantId == t && InvitationRowOk(row)
    requires ExecInvite(db, t, caller, id, row).Committed?
    ensures Keeps(t, db, ExecInvite(db, t, caller, id, row).db)
  {
    hide TenantRows, EventRows, MemberRows, RoleRows, InvitationRows, UniqueTenants, UniqueEvents, UniqueInvitations,
         EventRefs, MemberRefs, RoleRefs, InvitationRefs, OwnersOk;
    InvitationPut(db.tenants, db.invitations, id, row);
  }

  lemma KeepsAccept(x: Txn, db: Db, now: int)
    requires x.AcceptInvite? && DbOk(db) && ParamsOk(db, x) && ExecAcceptInvite(db, x, now).Committed?
    ensures Keeps(x.tenant, db, ExecAcceptInvite(db, x, now).db)
  {
    hide TenantRows, EventRows, MemberRows, RoleRows, InvitationRows, UniqueTenants, UniqueEvents, UniqueInvitations,
         EventRefs, MemberRefs, RoleRefs, InvitationRefs, OwnersOk;
    var id := InvitationByToken(db, x.tenant, x.token).value;
    var row := db.invitations[id];
    var k, m := MemberKey(x.tenant, x.subject), Member(row.role, row.name);
    InvitationHome(db, id);
    MemberPut(db.tenants, db.events, db.members, db.eventRoles, k, m);
    NewMemberKeepsOwners(db.tenants, db.members, k, m);
    InvitationPut(db.tenants, db.invitations, id, row.(accepted := Some(Acceptance(now, x.subject))));
  }

  lemma KeepsRevokeInvite(db: Db, t: Id, p: Id, now: int)
    requires DbOk(db) && OwnedTenant(db, t) && ExecRevokeInvite(db, t, p, now).Committed?
    ensures Keeps(t, db, ExecRevokeInvite(db, t, p, now).db)
  {
    hide TenantRows, EventRows, MemberRows, RoleRows, InvitationRows, UniqueTenants, UniqueEvents, UniqueInvitations,
         EventRefs, MemberRefs, RoleRefs, InvitationRefs, OwnersOk;
    var id := InvitationByPublicId(db, t, p).value;
    InvitationHome(db, id);
    InvitationPut(db.tenants, db.invitations, id, db.invitations[id].(revoked := Some(now)));
  }

  lemma KeepsAddMember(db: Db, t: Id, u: Id, role: Role, name: string)
    requires DbOk(db) && OwnedTenant(db, t) && StoredRole(role) && ValidName(name) && ExecAddMember(db, t, u, role, name).Committed?
    ensures Keeps(t, db, ExecAddMember(db, t, u, role, name).db)
  {
    hide TenantRows, EventRows, MemberRows, RoleRows, InvitationRows, UniqueTenants, UniqueEvents, UniqueInvitations,
         EventRefs, MemberRefs, RoleRefs, InvitationRefs, OwnersOk;
    MemberPut(db.tenants, db.events, db.members, db.eventRoles, MemberKey(t, u), Member(role, name));
    NewMemberKeepsOwners(db.tenants, db.members, MemberKey(t, u), Member(role, name));
  }

  lemma KeepsClaim(x: Txn, db: Db, now: int)
    requires x.ClaimTenant? && DbOk(db) && ParamsOk(db, x) && ExecClaim(db, x, now).Committed?
    ensures Keeps(TenantByPublicId(db, x.publicId).value, db, ExecClaim(db, x, now).db)
  {
    hide TenantRows, EventRows, MemberRows, RoleRows, InvitationRows, UniqueTenants, UniqueEvents, UniqueInvitations,
         EventRefs, MemberRefs, RoleRefs, InvitationRefs, OwnersOk;
    var t := TenantByPublicId(db, x.publicId).value;
    var row := db.tenants[t].(ownership := Owned, subdomain := Some(x.subdomain), tokenHash := None, expiresAt := None);
    var k, m := MemberKey(t, x.subject), Member(RoleOwner, x.name);
    var ts', ms' := db.tenants[t := row], db.members[k := m];
    TenantHome(db, t);
    TenantPut(db.tenants, db.events, db.members, db.invitations, t, row);
    MemberPut(ts', db.events, db.members, db.eventRoles, k, m);
    assert OwnerIn(ms', t, x.subject);
    OwnersKept(db.tenants, db.members, ts', ms', t);
  }

  lemma KeepsAdminister(db: Db, p: Id, caller: Option<Id>, plan: Option<string>)
    requires DbOk(db) && ExecAdminister(db, p, caller, plan).Committed?
    ensures Keeps(TenantByPublicId(db, p).value, db, ExecAdminister(db, p, caller, plan).db)
  {
    hide TenantRows, EventRows, MemberRows, RoleRows, InvitationRows, UniqueTenants, UniqueEvents, UniqueInvitations,
         EventRefs, MemberRefs, RoleRefs, InvitationRefs, OwnersOk;
    var t := TenantByPublicId(db, p).value;
    var was := db.tenants[t];
    var row := if plan.Some? then was.(plan := plan.value) else was.(archived := true);
    TenantHome(db, t);
    OwnerOfOwned(db, t);
    TenantPut(db.tenants, db.events, db.members, db.invitations, t, row);
    OwnersKept(db.tenants, db.members, db.tenants[t := row], db.members, t);
  }

  lemma KeepsNewEvent(x: Txn, db: Db, open: bool)
    requires x.NewEvent? && DbOk(db) && ParamsOk(db, x) && ExecNewEvent(db, x, open).Committed?
    ensures Keeps(x.tenant, db, ExecNewEvent(db, x, open).db)
  {
    hide TenantRows, EventRows, MemberRows, RoleRows, InvitationRows, UniqueTenants, UniqueEvents, UniqueInvitations,
         EventRefs, MemberRefs, RoleRefs, InvitationRefs, OwnersOk;
    var es' := db.events[x.id := x.draft];
    MemberHome(db, MemberKey(x.tenant, x.subject));
    EventPut(db.tenants, db.events, db.members, db.eventRoles, x.id, x.draft);
    RolePut(es', db.members, db.eventRoles, RoleKey(x.id, x.subject), EventRole(x.tenant, db.members[MemberKey(x.tenant, x.subject)].role));
  }

  lemma KeepsSetStatus(db: Db, e: Id, name: string, status: EventStatus, open: bool)
    requires DbOk(db) && e in db.events && db.events[e].name == name && status != StatusUnspecified
    requires ExecSetStatus(db, e, name, status, open).Committed?
    ensures Keeps(db.events[e].tenantId, db, ExecSetStatus(db, e, name, status, open).db)
  {
    hide TenantRows, EventRows, MemberRows, RoleRows, InvitationRows, UniqueTenants, UniqueEvents, UniqueInvitations,
         EventRefs, MemberRefs, RoleRefs, InvitationRefs, OwnersOk;
    EventHome(db, e);
    EventPut(db.tenants, db.events, db.members, db.eventRoles, e, db.events[e].(name := name, status := status));
  }

  /** Every committed transaction keeps every constraint, moves rows forward only, and leaves
      the rows of every tenant but its own as they were. */
  lemma ExecKeeps(x: Txn, o: Obs, db: Db)
    requires DbOk(db) && ParamsOk(db, x) && Exec(x, o, db).Committed?
    ensures TargetOf(x, db).Some? && Keeps(TargetOf(x, db).value, db, Exec(x, o, db).db)
  {
    hide DbOk, Keeps, Forward, Agree, ExecChangeRole, ExecRevokeMember, ExecGrantRole, ExecRevokeEventRole,
         ExecInvite, ExecAcceptInvite, ExecRevokeInvite, ExecAddMember, ExecNewEvent, ExecSetStatus,
         InvitationByToken, InvitationByPublicId;
    match x
    case ChangeRole(t, c, u, role) => KeepsChangeRole(db, o, t, c, u, role);
    case RevokeMember(t, c, u) => KeepsRevokeMember(db, t, c, u);
    case GrantRole(t, c, e, u, role) => KeepsGrantRole(db, t, c, e, u, role);
    case RevokeEventRole(t, c, e, u) => KeepsRevokeEventRole(db, t, c, e, u);
    case Invite(t, c, id, row) => KeepsInvite(db, t, c, id, row);
    case AcceptInvite(_, _, _, _, _) => KeepsAccept(x, db, o.now);
    case RevokeInvite(t, p) => KeepsRevokeInvite(db, t, p, o.now);
    case AddMember(t, u, role, name) => KeepsAddMember(db, t, u, role, name);
    case ClaimTenant(_, _, _, _, _, _) => KeepsClaim(x, db, o.now);
    case ChangePlan(p, c, plan) => KeepsAdminister(db, p, c, Some(plan));
    case ArchiveTenant(p, c) => KeepsAdminister(db, p, c, None);
    case NewEvent(_, _, _, _) => KeepsNewEvent(x, db, o.open);
    case SetStatus(e, name, status) => KeepsSetStatus(db, e, name, status, o.open);
  }

  // ---------------------------------------------------------------- registration and the sweep

  lemma NothingBelowExpired(db: Db, now: int)
    requires DbOk(db)
    ensures Sweep(db, now) == db.(tenants := db.tenants - Expired(db, now))
  {
    hide DbOk;
    var db' := Sweep(db, now);
    forall id | id in db.events ensures OwnedTenant(db, db.events[id].tenantId) { EventHome(db, id); }
    forall k | k in db.members ensures OwnedTenant(db, k.tenant) { MemberHome(db, k); }
    forall k | k in db.eventRoles ensures OwnedTenant(db, db.eventRoles[k].tenantId) {
      RoleHome(db, k);
      MemberHome(db, MemberKey(db.eventRoles[k].tenantId, k.user));
    }
    forall id | id in db.invitations ensures OwnedTenant(db, db.invitations[id].tenantId) { InvitationHome(db, id); }
    assert db'.events == db.events && db'.members == db.members && db'.eventRoles == db.eventRoles && db'.invitations == db.invitations;
  }

  lemma TenantsDrop(ts: map<Id, Tenant>, es: map<Id, Event>, ms: map<MemberKey, Member>, ns: map<Id, Invitation>, gone: set<Id>)
    requires TenantRows(ts) && UniqueTenants(ts) && EventRefs(ts, es) && MemberRefs(ts, ms) && InvitationRefs(ts, ns) && OwnersOk(ts, ms)
    requires forall id :: id in gone ==> !OwnedIn(ts, id)
    ensures TenantRows(ts - gone) && UniqueTenants(ts - gone) && EventRefs(ts - gone, es) && MemberRefs(ts - gone, ms)
    ensures InvitationRefs(ts - gone, ns) && OwnersOk(ts - gone, ms)
    ensures TenantsForward(ts, ts - gone) && forall a :: a !in gone ==> AgreeTenant(ts, ts - gone, a)
  {
    hide UniqueTenants, TenantRowOk;
    UniqueTenantsDrop(ts, gone);
  }

  lemma UniqueTenantsDrop(ts: map<Id, Tenant>, gone: set<Id>)
    requires UniqueTenants(ts)
    ensures UniqueTenants(ts - gone)
  {
  }

  /** The sweep removes exactly the pending tenants whose claim is expired, which are the ones a
      claim at that moment would refuse; it cascades to nothing, because they have no rows below. */
  lemma SweepExact(db: Db, now: int)
    requires DbOk(db)
    ensures Sweep(db, now) == db.(tenants := db.tenants - Expired(db, now))
    ensures forall id :: id in Expired(db, now) <==>
                         id in db.tenants && db.tenants[id].ownership == PendingOwner && ClaimExpired(db.tenants[id].expiresAt.value, now)
    ensures DbOk(Sweep(db, now)) && Forward(db, Sweep(db, now))
    ensures forall t :: t !in Expired(db, now) ==> Agree(db, Sweep(db, now), t)
  {
    hide TenantRows, EventRows, MemberRows, RoleRows, InvitationRows, UniqueTenants, UniqueEvents, UniqueInvitations,
         EventRefs, MemberRefs, RoleRefs, InvitationRefs, OwnersOk;
    NothingBelowExpired(db, now);
    forall id | id in db.tenants && db.tenants[id].ownership == PendingOwner ensures db.tenants[id].expiresAt.Some? { TenantHome(db, id); }
    TenantsDrop(db.tenants, db.events, db.members, db.invitations, Expired(db, now));
  }

  lemma RegisterKeeps(db: Db, id: Id, row: Tenant)
    requires DbOk(db) && PendingRow(row) && ExecRegister(db, id, row).Committed?
    ensures Keeps(id, db, ExecRegister(db, id, row).db)
  {
    hide TenantRows, EventRows, MemberRows, RoleRows, InvitationRows, UniqueTenants, UniqueEvents, UniqueInvitations,
         EventRefs, MemberRefs, RoleRefs, InvitationRefs, OwnersOk;
    TenantNew(db.tenants, db.events, db.members, db.invitations, id, row);
  }

  lemma TenantNew(ts: map<Id, Tenant>, es: map<Id, Event>, ms: map<MemberKey, Member>, ns: map<Id, Invitation>,
      t: Id, row: Tenant)
    requires TenantRows(ts) && UniqueTenants(ts) && EventRefs(ts, es) && MemberRefs(ts, ms) && InvitationRefs(ts, ns) && OwnersOk(ts, ms)
    requires PendingRow(row) && t !in ts && forall a :: a in ts ==> ts[a].publicId != row.publicId
    ensures var ts' := ts[t := row];
            TenantRows(ts') && UniqueTenants(ts') && EventRefs(ts', es) && MemberRefs(ts', ms) && InvitationRefs(ts', ns) &&
            OwnersOk(ts', ms) &&
            TenantsForward(ts, ts') && forall a :: a != t ==> AgreeTenant(ts, ts', a)
  {
    hide UniqueTenants;
    UniqueTenantsPut(ts, t, row);
  }
}

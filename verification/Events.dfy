/** Events and event roles over every run: an event is born with its creator's role, and an event
    role never outlives its membership. */
module EventHistory {
  import opened Domain
  import opened Tables
  import opened AtomicLaws
  import opened Machine
  import opened Invariant
  import opened Schedules
  import opened Histories

  /** The event roles that name event e. */
  function RolesOn(db: Db, e: Id): set<Id> { set k | k in db.eventRoles && k.event == e :: k.user }

  /** Event creation commits the draft and the creator's event role together; that role is the
      creator's tenant role in the very state the commit meets, and it is the event's only one. */
  lemma CreationEffect(x: Txn, o: Obs, db: Db)
    requires DbOk(db) && ParamsOk(db, x) && x.NewEvent? && Exec(x, o, db).Committed?
    ensures MemberKey(x.tenant, x.subject) in db.members && x.id !in db.events
    ensures var db', role := Exec(x, o, db).db, db.members[MemberKey(x.tenant, x.subject)].role;
            db' == db.(events := db.events[x.id := x.draft],
                       eventRoles := db.eventRoles[RoleKey(x.id, x.subject) := EventRole(x.tenant, role)]) &&
            StoredRole(role) && x.draft.status == Draft && x.draft.tenantId == x.tenant && RolesOn(db', x.id) == {x.subject}
  {
    hide DbOk;
    MemberHome(db, MemberKey(x.tenant, x.subject));
    var db' := Exec(x, o, db).db;
    forall k | k in db'.eventRoles && k.event == x.id ensures k == RoleKey(x.id, x.subject) {
      if k in db.eventRoles { RoleHome(db, k); }
    }
    assert RoleKey(x.id, x.subject).user in RolesOn(db', x.id);
  }

  lemma EventBornBy(x: Txn, o: Obs, db: Db, e: Id)
    requires ParamsOk(db, x) && Exec(x, o, db).Committed? && e !in db.events && e in Exec(x, o, db).db.events
    ensures x.NewEvent? && x.id == e
  {
    hide InvitationByToken, InvitationByPublicId, TenantByPublicId;
  }

  /** An event appears only so, at the commit of its creation. */
  lemma EventsAppearWithCreator(c: Config, s: State, l: Label, e: Id)
    requires Reachable(c, s) && e !in s.db.events && e in Next(c, s, l).db.events
    ensures StepOf(c, s, l).Commits? && StepOf(c, s, l).txn.NewEvent? && StepOf(c, s, l).txn.id == e
    ensures var x, db' := StepOf(c, s, l).txn, Next(c, s, l).db;
            var k := MemberKey(x.tenant, x.subject);
            db'.events[e] == x.draft && x.draft.status == Draft && RolesOn(db', e) == {x.subject} &&
            k in s.db.members && db'.eventRoles[RoleKey(e, x.subject)] == EventRole(x.tenant, s.db.members[k].role)
  {
    hide Reachable, DbOk, LocksOk, ReqsOk, Next, Point, Exec, ExecRegister, Sweep, ParamsOk, PendingRow;
    ReachableInv(c, s);
    StepCommits(c, s, l);
    match StepOf(c, s, l)
    case Quiet =>
    case Commits(_, x, o) =>
      EventBornBy(x, o, s.db, e);
      CreationEffect(x, o, s.db);
    case Sweeps(now) => SweepExact(s.db, now);
    case Registers(id, row) => RegisterEvents(s.db, id, row);
  }

  lemma RegisterEvents(db: Db, id: Id, row: Tenant)
    requires ExecRegister(db, id, row).Committed?
    ensures ExecRegister(db, id, row).db == db.(tenants := ExecRegister(db, id, row).db.tenants)
  {
  }

  /** In every reachable state each event role belongs to an event of its own tenant and to a
      live membership there, across grants, revokes and cascades. */
  lemma EventRolesHaveMembers(c: Config, s: State, k: RoleKey)
    requires Reachable(c, s) && k in s.db.eventRoles
    ensures k.event in s.db.events
    ensures var t := s.db.events[k.event].tenantId;
            s.db.eventRoles[k].tenantId == t && MemberKey(t, k.user) in s.db.members && OwnedTenant(s.db, t) &&
            StoredRole(s.db.eventRoles[k].role)
  {
    hide Reachable, Inv, DbOk;
    ReachableInv(c, s);
    RoleHome(s.db, k);
    MemberHome(s.db, MemberKey(s.db.eventRoles[k].tenantId, k.user));
    StoredRoles(s.db, k);
  }

  lemma StoredRoles(db: Db, k: RoleKey)
    requires DbOk(db) && k in db.eventRoles
    ensures StoredRole(db.eventRoles[k].role)
  {
  }

  /** Revoking a tenant membership takes away exactly that member's event roles in that tenant. */
  lemma RevocationCascades(x: Txn, o: Obs, db: Db, k: RoleKey)
    requires DbOk(db) && x.RevokeMember? && Exec(x, o, db).Committed? && k in db.eventRoles
    ensures k !in Exec(x, o, db).db.eventRoles <==> k.user == x.user && k.event in db.events && db.events[k.event].tenantId == x.tenant
    ensures Exec(x, o, db).db.members == db.members - {MemberKey(x.tenant, x.user)}
  {
    hide DbOk;
    RoleHome(db, k);
  }
}

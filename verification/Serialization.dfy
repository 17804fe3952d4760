/** Serializability: every schedule is equivalent to running its transactions one at a time, each
    reading everything, the archived flag included, from the state it finds. */
module Serialization {
  import opened Domain
  import opened Tables
  import opened AtomicLaws
  import opened Machine
  import opened Invariant
  import opened Interference
  import opened Refinement
  import opened Schedules
  import opened Histories
  import opened Service

  // ---------------------------------------------------------------- running one at a time

  /** What a transaction answers on the state it finds; nothing but the clock is given to it. */
  ghost function Answered(a: Atomic, db: Db): Outcome {
    match a
    case AtomicTxn(_, x, o, _) => Exec(x, Obs(o.now, ReadsOpen(x, db)), db)
    case _ => OutcomeOf(a, db)
  }

  ghost function Apart(a: Atomic, db: Db): Db {
    if Answered(a, db).Committed? then Answered(a, db).db else db
  }

  ghost function RunApart(ps: seq<Atomic>, db: Db): Db
    decreases |ps|
  {
    if ps == [] then db else RunApart(ps[1..], Apart(ps[0], db))
  }

  /** A creation that was refused because a generated identifier is taken. */
  predicate Collided(a: Atomic) {
    a.AtomicTxn? && a.txn.NewEvent? && a.reply in {Failure(Internal), Failure(EventPublicIDExists)}
  }

  /** The reply given is the answer; a creation refused over a generated identifier is refused, be it for
      another reason. */
  ghost predicate AnsweredAlike(a: Atomic, db: Db) {
    match Answered(a, db)
    case Committed(_) => a.AtomicSweep? || a.reply == Success
    case Refused(e) => !a.AtomicSweep? && (a.reply == Failure(e) || Collided(a))
  }

  /** What a transaction was given by its gate holds where it runs. */
  ghost predicate Admissible(a: Atomic, db: Db) {
    (a.AtomicTxn? ==> ParamsOk(db, a.txn)) && (a.AtomicRegister? ==> PendingRow(a.row))
  }

  /** A run in which every transaction is admissible and answered as its request was. */
  ghost predicate Runs(ps: seq<Atomic>, db: Db)
    decreases |ps|
  {
    ps == [] || (Admissible(ps[0], db) && AnsweredAlike(ps[0], db) && Runs(ps[1..], Apart(ps[0], db)))
  }

  lemma AtomicKeeps(a: Atomic, db: Db)
    requires DbOk(db) && Admissible(a, db)
    ensures DbOk(Apart(a, db)) && Forward(db, Apart(a, db))
  {
    hide DbOk, ParamsOk, Exec, ExecRegister, Sweep, Forward, Agree, TargetOf, PendingRow, ReadsOpen;
    ForwardRefl(db);
    match a
    case AtomicTxn(_, x, o, _) =>
      var seen := Obs(o.now, ReadsOpen(x, db));
      if Exec(x, seen, db).Committed? { ExecKeeps(x, seen, db); }
    case AtomicSweep(_, now) => SweepExact(db, now);
    case AtomicRegister(_, id, row, _) => if ExecRegister(db, id, row).Committed? { RegisterKeeps(db, id, row); }
    case AtomicReadBack(_, _, _) =>
  }

  lemma {:induction false} RunKeeps(ps: seq<Atomic>, db: Db)
    requires DbOk(db) && Runs(ps, db)
    ensures DbOk(RunApart(ps, db)) && Forward(db, RunApart(ps, db))
    decreases |ps|
  {
    hide DbOk, Forward, Apart, Admissible, AnsweredAlike;
    if ps == [] {
      ForwardRefl(db);
    } else {
      var db1 := Apart(ps[0], db);
      AtomicKeeps(ps[0], db);
      RunKeeps(ps[1..], db1);
      ForwardTrans(db, db1, RunApart(ps[1..], db1));
    }
  }

  lemma {:induction false} RunsConcat(ps: seq<Atomic>, qs: seq<Atomic>, db: Db)
    ensures RunApart(ps + qs, db) == RunApart(qs, RunApart(ps, db))
    ensures Runs(ps + qs, db) <==> Runs(ps, db) && Runs(qs, RunApart(ps, db))
    decreases |ps|
  {
    hide Apart, Admissible, AnsweredAlike;
    if ps == [] {
      assert ps + qs == qs;
    } else {
      assert (ps + qs)[0] == ps[0] && (ps + qs)[1..] == ps[1..] + qs;
      RunsConcat(ps[1..], qs, Apart(ps[0], db));
    }
  }

  lemma RunsOne(a: Atomic, db: Db)
    ensures RunApart([a], db) == Apart(a, db)
    ensures Runs([a], db) <==> Admissible(a, db) && AnsweredAlike(a, db)
  {
    hide Apart, Admissible, AnsweredAlike;
    assert [a][1..] == [];
  }

  // ---------------------------------------------------------------- the order

  predicate ArchivedIn(db: Db, t: Id) { OwnedTenant(db, t) && db.tenants[t].archived }

  /** The tenant whose archived flag guards an event write. */
  function TenantOfEvent(x: Txn, db: Db): Id {
    match x
    case NewEvent(t, _, _, _) => t
    case SetStatus(e, _, _) => if e in db.events then db.events[e].tenantId else ""
    case _ => ""
  }

  /** An event write that commits although its tenant has been archived since its guard. */
  predicate Overtaken(a: Atomic, db: Db) {
    a.AtomicTxn? && WritesEvent(a.txn) && a.reply == Success && ArchivedIn(db, TenantOfEvent(a.txn, db))
  }

  /** ps with a put in just before the transaction that archives tenant t. */
  ghost function BeforeArchival(a: Atomic, t: Id, ps: seq<Atomic>, db: Db): seq<Atomic>
    decreases |ps|
  {
    if ps == [] then [a]
    else if !ArchivedIn(db, t) && ArchivedIn(Apart(ps[0], db), t) then [a] + ps
    else [ps[0]] + BeforeArchival(a, t, ps[1..], Apart(ps[0], db))
  }

  /** Commit order, except that an overtaken event write comes before the archival that overtook it. */
  ghost function SerialOrder(c: Config, clock: int, ls: seq<Label>): seq<Atomic>
    decreases |ls|
  {
    if ls == [] then []
    else
      var n := |ls| - 1;
      var sofar, s := SerialOrder(c, clock, ls[..n]), After(c, Init(clock), ls[..n]);
      var p := Point(c, s, ls[n]);
      if p != [] && Overtaken(p[0], s.db) then BeforeArchival(p[0], TenantOfEvent(p[0].txn, s.db), sofar, EmptyDb)
      else sofar + p
  }

  lemma {:induction false} InsertionPermutes(a: Atomic, t: Id, ps: seq<Atomic>, db: Db)
    ensures multiset(BeforeArchival(a, t, ps, db)) == multiset(ps) + multiset{a}
    decreases |ps|
  {
    hide Apart, ArchivedIn;
    if ps != [] {
      assert ps == [ps[0]] + ps[1..];
      InsertionPermutes(a, t, ps[1..], Apart(ps[0], db));
    }
  }

  // ---------------------------------------------------------------- an event write commutes

  /** The tables with an event write made. */
  function With(x: Txn, role: Role, db: Db): Db {
    match x
    case NewEvent(t, u, e, row) => db.(events := db.events[e := row], eventRoles := db.eventRoles[RoleKey(e, u) := EventRole(t, role)])
    case SetStatus(e, name, status) => Apply(SetEvent(e, name, status), db)
    case _ => db
  }

  /** Nothing but the archived flag stands in the way of the write. */
  ghost predicate CanWrite(x: Txn, role: Role, db: Db) {
    match x
    case NewEvent(t, u, e, row) =>
      MemberKey(t, u) in db.members && db.members[MemberKey(t, u)].role == role && StoredRole(role) &&
      e !in db.events && !EventPublicIdTaken(db, row.publicId)
    case SetStatus(e, _, _) => e in db.events
    case _ => false
  }

  lemma WriteAnswers(x: Txn, role: Role, db: Db, now: int)
    requires ParamsOk(db, x) && CanWrite(x, role, db)
    ensures Exec(x, Obs(now, true), db) == Committed(With(x, role, db))
  {
  }

  ghost predicate Commutes(x: Txn, role: Role, y: Txn, o: Obs, db: Db) {
    var here, there := Exec(y, o, db), Exec(y, o, With(x, role, db));
    if here.Committed? then there == Committed(With(x, role, here.db))
    else there == here || (there.Refused? && y.NewEvent? && here.error in {Internal, EventPublicIDExists})
  }

  lemma CreationCommutesWithCreation(x: Txn, role: Role, y: Txn, o: Obs, db: Db)
    requires x.NewEvent? && y.NewEvent? && DbOk(db) && CanWrite(x, role, db)
    requires Exec(y, o, db).Committed? ==> CanWrite(x, role, Exec(y, o, db).db)
    ensures Commutes(x, role, y, o, db)
  {
    hide DbOk, EventPublicIdTaken;
    var k := MemberKey(y.tenant, y.subject);
    if k in db.members { MemberHome(db, k); }
    TakenWith(db, With(x, role, db), x.id, x.draft, y.draft.publicId);
    if Exec(y, o, db).Committed? { TakenWith(db, Exec(y, o, db).db, y.id, y.draft, x.draft.publicId); }
  }

  lemma TakenWith(db: Db, db': Db, e: Id, row: Event, p: Id)
    requires e !in db.events && db'.events == db.events[e := row]
    ensures EventPublicIdTaken(db', p) <==> row.publicId == p || EventPublicIdTaken(db, p)
  {
    OtherPublicId(db.events, e, row, p);
  }

  lemma OtherPublicId(es: map<Id, Event>, e: Id, row: Event, p: Id)
    requires e !in es
    ensures var es' := es[e := row];
            (exists id :: id in es' && es'[id].publicId == p) <==> row.publicId == p || exists id :: id in es && es[id].publicId == p
  {
    var es' := es[e := row];
    if id :| id in es && es[id].publicId == p { assert es'[id].publicId == p; }
    if row.publicId == p { assert es'[e].publicId == p; }
  }

  lemma CreationCommutesWithMembership(x: Txn, role: Role, y: Txn, o: Obs, db: Db)
    requires x.NewEvent? && (Serialized(y) || y.AddMember? || y.RevokeInvite?)
    requires DbOk(db) && ParamsOk(db, y) && CanWrite(x, role, db)
    requires Exec(y, o, db).Committed? ==> CanWrite(x, role, Exec(y, o, db).db)
    ensures Commutes(x, role, y, o, db)
  {
    hide DbOk, ExecClaim, ExecAdminister, ExecNewEvent, ExecSetStatus, InvitationOpen, Owners, ValidName, EventPublicIdTaken,
         ExecGrantRole, ExecRevokeEventRole, ExecRevokeMember;
    SameMembers(x, role, db);
    SameInvitations(db, With(x, role, db));
    if y.GrantRole? || y.RevokeEventRole? || y.RevokeMember? { CreationCommutesWithRoles(x, role, y, o, db); }
  }

  /** The members, tenants and invitations are as they were. */
  lemma SameMembers(x: Txn, role: Role, db: Db)
    ensures var db' := With(x, role, db);
            db'.members == db.members && db'.tenants == db.tenants && db'.invitations == db.invitations &&
            forall t :: Owners(db', t) == Owners(db, t)
  {
  }

  lemma CreationCommutesWithRoles(x: Txn, role: Role, y: Txn, o: Obs, db: Db)
    requires x.NewEvent? && (y.GrantRole? || y.RevokeEventRole? || y.RevokeMember?)
    requires ParamsOk(db, y) && CanWrite(x, role, db)
    requires Exec(y, o, db).Committed? ==> CanWrite(x, role, Exec(y, o, db).db)
    ensures Commutes(x, role, y, o, db)
  {
    hide ExecChangeRole, ExecInvite, ExecAcceptInvite, ExecRevokeInvite, ExecAddMember, ExecClaim, ExecAdminister,
         ExecNewEvent, ExecSetStatus,
         Owners, ValidName, EventPublicIdTaken;
    SameMembers(x, role, db);
  }

  lemma CreationCommutesWithTenant(x: Txn, role: Role, y: Txn, o: Obs, db: Db)
    requires x.NewEvent? && (y.ClaimTenant? || Administers(y) || y.SetStatus?)
    requires DbOk(db) && ParamsOk(db, y) && CanWrite(x, role, db)
    ensures Commutes(x, role, y, o, db)
  {
    hide DbOk, ExecChangeRole, ExecRevokeMember, ExecGrantRole, ExecRevokeEventRole, ExecInvite, ExecAcceptInvite,
         ExecRevokeInvite, ExecAddMember,
         ExecNewEvent, ValidName, EventPublicIdTaken;
    SameTenants(db, With(x, role, db));
  }

  lemma SameTenants(db: Db, db': Db)
    requires DbOk(db) && db'.tenants == db.tenants
    ensures forall p :: TenantByPublicId(db', p) == TenantByPublicId(db, p)
    ensures forall n :: SubdomainTaken(db', n) <==> SubdomainTaken(db, n)
  {
    forall p ensures TenantByPublicId(db', p) == TenantByPublicId(db, p) {
      if TenantByPublicId(db, p).Some? { assert TenantByPublicId(db', p).Some?; }
    }
  }

  lemma SameInvitations(db: Db, db': Db)
    requires DbOk(db) && db'.invitations == db.invitations
    ensures forall t, h :: InvitationByToken(db', t, h) == InvitationByToken(db, t, h)
    ensures forall t, p :: InvitationByPublicId(db', t, p) == InvitationByPublicId(db, t, p)
    ensures forall p :: InvitationPublicIdTaken(db', p) <==> InvitationPublicIdTaken(db, p)
    ensures forall h :: TokenTaken(db', h) <==> TokenTaken(db, h)
  {
    forall t, h ensures InvitationByToken(db', t, h) == InvitationByToken(db, t, h) {
      if InvitationByToken(db, t, h).Some? { assert InvitationByToken(db', t, h).Some?; }
    }
    forall t, p ensures InvitationByPublicId(db', t, p) == InvitationByPublicId(db, t, p) {
      if InvitationByPublicId(db, t, p).Some? { assert InvitationByPublicId(db', t, p).Some?; }
    }
  }

  lemma StatusCommutesWithRoles(x: Txn, role: Role, y: Txn, o: Obs, db: Db)
    requires x.SetStatus? && (y.ChangeRole? || y.RevokeMember? || y.GrantRole? || y.RevokeEventRole?)
    requires DbOk(db) && CanWrite(x, role, db)
    ensures Commutes(x, role, y, o, db)
  {
    hide DbOk, ExecClaim, ExecAdminister, ExecNewEvent, ExecSetStatus, ExecInvite, ExecAcceptInvite, ExecRevokeInvite, ExecAddMember,
         Owners, ValidName, EventPublicIdTaken;
    SameMembers(x, role, db);
  }

  lemma StatusCommutesWithInvitations(x: Txn, role: Role, y: Txn, o: Obs, db: Db)
    requires x.SetStatus? && (y.Invite? || y.AcceptInvite? || y.RevokeInvite? || y.AddMember?)
    requires DbOk(db) && CanWrite(x, role, db)
    ensures Commutes(x, role, y, o, db)
  {
    hide DbOk, ExecClaim, ExecAdminister, ExecNewEvent, ExecSetStatus, ExecChangeRole, ExecRevokeMember, ExecGrantRole, ExecRevokeEventRole,
         InvitationOpen, Owners, ValidName, EventPublicIdTaken;
    SameMembers(x, role, db);
    SameInvitations(db, With(x, role, db));
  }

  lemma StatusCommutesWithTenant(x: Txn, role: Role, y: Txn, o: Obs, db: Db)
    requires x.SetStatus? && (y.ClaimTenant? || Administers(y))
    requires DbOk(db) && CanWrite(x, role, db)
    ensures Commutes(x, role, y, o, db)
  {
    hide DbOk, ExecChangeRole, ExecRevokeMember, ExecGrantRole, ExecRevokeEventRole, ExecInvite, ExecAcceptInvite,
         ExecRevokeInvite, ExecAddMember, ExecNewEvent, ExecSetStatus, ValidName, EventPublicIdTaken;
    SameTenants(db, With(x, role, db));
  }

  lemma StatusCommutesWithWrites(x: Txn, role: Role, y: Txn, o: Obs, db: Db)
    requires x.SetStatus? && WritesEvent(y)
    requires DbOk(db) && CanWrite(x, role, db)
    requires y.SetStatus? && y.event == x.event ==> Exec(y, o, db).Refused?
    ensures Commutes(x, role, y, o, db)
  {
    hide DbOk, ExecChangeRole, ExecRevokeMember, ExecGrantRole, ExecRevokeEventRole, ExecInvite, ExecAcceptInvite,
         ExecRevokeInvite, ExecAddMember, ExecClaim, ExecAdminister, ValidName, EventPublicIdTaken;
    forall p ensures EventPublicIdTaken(With(x, role, db), p) <==> EventPublicIdTaken(db, p) { SamePublicIds(x, role, db, p); }
  }

  lemma SamePublicIds(x: Txn, role: Role, db: Db, p: Id)
    requires x.SetStatus?
    ensures EventPublicIdTaken(With(x, role, db), p) <==> EventPublicIdTaken(db, p)
  {
    var es, es' := db.events, With(x, role, db).events;
    if id :| id in es && es[id].publicId == p { assert es'[id].publicId == p; }
    if id :| id in es' && es'[id].publicId == p { assert es[id].publicId == p; }
  }

  /** An event write made earlier stays out of the way of every other transaction: it answers the
      same, and ends in the same tables with the write made. */
  lemma TxnCommutes(x: Txn, role: Role, y: Txn, o: Obs, db: Db)
    requires WritesEvent(x) && DbOk(db) && ParamsOk(db, y) && CanWrite(x, role, db)
    requires Exec(y, o, db).Committed? ==> CanWrite(x, role, Exec(y, o, db).db)
    requires x.SetStatus? && y.SetStatus? && y.event == x.event ==> Exec(y, o, db).Refused?
    ensures Commutes(x, role, y, o, db)
  {
    hide DbOk, ParamsOk, CanWrite, Exec, Commutes;
    if x.NewEvent? {
      if y.NewEvent? { CreationCommutesWithCreation(x, role, y, o, db); }
      else if y.ClaimTenant? || Administers(y) || y.SetStatus? { CreationCommutesWithTenant(x, role, y, o, db); }
      else { CreationCommutesWithMembership(x, role, y, o, db); }
    } else {
      if y.ClaimTenant? || Administers(y) { StatusCommutesWithTenant(x, role, y, o, db); }
      else if WritesEvent(y) { StatusCommutesWithWrites(x, role, y, o, db); }
      else if y.Invite? || y.AcceptInvite? || y.RevokeInvite? || y.AddMember? { StatusCommutesWithInvitations(x, role, y, o, db); }
      else { StatusCommutesWithRoles(x, role, y, o, db); }
    }
  }

  lemma WithKeeps(x: Txn, role: Role, db: Db)
    requires WritesEvent(x) && DbOk(db) && ParamsOk(db, x) && CanWrite(x, role, db)
    ensures DbOk(With(x, role, db)) && Forward(db, With(x, role, db))
  {
    hide DbOk, ParamsOk, CanWrite, Exec, Forward, Agree, TargetOf, With;
    WriteAnswers(x, role, db, 0);
    ExecKeeps(x, Obs(0, true), db);
  }

  lemma SameGuard(x: Txn, role: Role, y: Txn, db: Db)
    requires WritesEvent(x) && ParamsOk(db, y) && CanWrite(x, role, db)
    ensures ReadsOpen(y, With(x, role, db)) == ReadsOpen(y, db)
  {
  }

  lemma SweepCommutes(x: Txn, role: Role, db: Db, now: int)
    requires WritesEvent(x) && DbOk(db) && ParamsOk(db, x) && CanWrite(x, role, db)
    ensures Sweep(With(x, role, db), now) == With(x, role, Sweep(db, now))
  {
    hide DbOk, ParamsOk, CanWrite, Sweep, Forward, Agree;
    WithKeeps(x, role, db);
    SweepExact(db, now);
    SweepExact(With(x, role, db), now);
    assert Expired(With(x, role, db), now) == Expired(db, now);
  }

  lemma RegisterCommutes(x: Txn, role: Role, db: Db, id: Id, row: Tenant)
    requires WritesEvent(x) && DbOk(db)
    ensures var here, there := ExecRegister(db, id, row), ExecRegister(With(x, role, db), id, row);
            if here.Committed? then there == Committed(With(x, role, here.db)) else there == here
  {
    hide DbOk;
    SameTenants(db, With(x, role, db));
  }

  lemma AtomicCommutes(x: Txn, role: Role, a: Atomic, db: Db)
    requires WritesEvent(x) && DbOk(db) && ParamsOk(db, x) && Admissible(a, db) && AnsweredAlike(a, db)
    requires CanWrite(x, role, db) && CanWrite(x, role, Apart(a, db))
    requires a.AtomicTxn? && x.SetStatus? && a.txn.SetStatus? && a.txn.event == x.event ==> Answered(a, db).Refused?
    ensures Admissible(a, With(x, role, db)) && AnsweredAlike(a, With(x, role, db))
    ensures Apart(a, With(x, role, db)) == With(x, role, Apart(a, db))
  {
    hide DbOk, ParamsOk, CanWrite, Exec, ExecRegister, Sweep, Forward, With, ReadsOpen, PendingRow;
    match a
    case AtomicTxn(_, y, o, _) =>
      WithKeeps(x, role, db);
      ParamsStable(db, With(x, role, db), y);
      SameGuard(x, role, y, db);
      TxnCommutes(x, role, y, Obs(o.now, ReadsOpen(y, db)), db);
    case AtomicSweep(_, now) => SweepCommutes(x, role, db, now);
    case AtomicRegister(_, id, row, _) => RegisterCommutes(x, role, db, id, row);
    case AtomicReadBack(_, _, _) => SameMembers(x, role, db);
  }

  // ---------------------------------------------------------------- what an event write under way relies on

  /** What stays so from the guard to the commit: the creator's membership, or the event. */
  predicate Relies(x: Txn, role: Role, t: Id, db: Db) {
    match x
    case NewEvent(a, u, _, _) => a == t && MemberKey(t, u) in db.members && db.members[MemberKey(t, u)].role == role
    case SetStatus(e, _, _) => e in db.events && db.events[e].tenantId == t
    case _ => false
  }

  ghost predicate ReliesAlong(x: Txn, role: Role, t: Id, ps: seq<Atomic>, db: Db)
    decreases |ps|
  {
    Relies(x, role, t, db) && (ps == [] || ReliesAlong(x, role, t, ps[1..], Apart(ps[0], db)))
  }

  predicate Archives(t: Id, db: Db, db': Db) { !ArchivedIn(db, t) && ArchivedIn(db', t) }

  /** If the run archives t, the write could be made just before, and what it relies on holds from there on. */
  ghost predicate Ready(x: Txn, role: Role, t: Id, ps: seq<Atomic>, db: Db)
    decreases |ps|
  {
    ps == [] ||
    if Archives(t, db, Apart(ps[0], db)) then ParamsOk(db, x) && ReliesAlong(x, role, t, ps, db)
    else Ready(x, role, t, ps[1..], Apart(ps[0], db))
  }

  lemma ArchivedStays(db: Db, db': Db, t: Id)
    requires ArchivedIn(db, t) && Forward(db, db')
    ensures ArchivedIn(db', t)
  {
  }

  lemma {:induction false} OpenIsReady(x: Txn, role: Role, t: Id, ps: seq<Atomic>, db: Db)
    requires DbOk(db) && Runs(ps, db) && !ArchivedIn(RunApart(ps, db), t)
    ensures Ready(x, role, t, ps, db)
    decreases |ps|
  {
    hide DbOk, ParamsOk, Apart, Admissible, AnsweredAlike, Forward, ArchivedIn, ReliesAlong;
    if ps != [] {
      var db1 := Apart(ps[0], db);
      AtomicKeeps(ps[0], db);
      RunKeeps(ps[1..], db1);
      if ArchivedIn(db1, t) { ArchivedStays(db1, RunApart(ps[1..], db1), t); }
      OpenIsReady(x, role, t, ps[1..], db1);
    }
  }

  lemma {:induction false} ReliesAppend(x: Txn, role: Role, t: Id, ps: seq<Atomic>, b: Atomic, db: Db)
    requires ReliesAlong(x, role, t, ps, db) && Relies(x, role, t, Apart(b, RunApart(ps, db)))
    ensures ReliesAlong(x, role, t, ps + [b], db)
    decreases |ps|
  {
    hide Apart, Relies;
    var qs := ps + [b];
    if ps == [] {
      assert qs == [b] && qs[1..] == [];
    } else {
      assert qs[0] == ps[0] && qs[1..] == ps[1..] + [b];
      ReliesAppend(x, role, t, ps[1..], b, Apart(ps[0], db));
    }
  }

  lemma {:induction false} ReadyAppend(x: Txn, role: Role, t: Id, ps: seq<Atomic>, b: Atomic, db: Db)
    requires Ready(x, role, t, ps, db)
    requires var end := RunApart(ps, db); ParamsOk(end, x) && Relies(x, role, t, end) && Relies(x, role, t, Apart(b, end))
    ensures Ready(x, role, t, ps + [b], db)
    decreases |ps|
  {
    hide ParamsOk, Apart, Relies, Archives;
    var qs := ps + [b];
    if ps == [] {
      assert qs == [b] && qs[1..] == [];
      assert ReliesAlong(x, role, t, [], Apart(b, db));
    } else {
      assert qs[0] == ps[0] && qs[1..] == ps[1..] + [b];
      if Archives(t, db, Apart(ps[0], db)) {
        ReliesAppend(x, role, t, ps, b, db);
      } else {
        ReadyAppend(x, role, t, ps[1..], b, Apart(ps[0], db));
      }
    }
  }

  // ---------------------------------------------------------------- a write put in earlier

  /** Nothing stands in the way of the write at any point of the run. */
  lemma {:induction false} WritableAlong(x: Txn, role: Role, t: Id, ps: seq<Atomic>, db: Db)
    requires DbOk(db) && Runs(ps, db) && ReliesAlong(x, role, t, ps, db) && CanWrite(x, role, RunApart(ps, db))
    ensures CanWrite(x, role, db)
  {
    hide DbOk, Runs, RunApart, EventPublicIdTaken;
    RunKeeps(ps, db);
    if x.NewEvent? { TakenStays(db, RunApart(ps, db), x.draft.publicId); }
  }

  lemma TakenStays(db: Db, db': Db, p: Id)
    requires Forward(db, db')
    ensures EventPublicIdTaken(db, p) ==> EventPublicIdTaken(db', p)
  {
    if id :| id in db.events && db.events[id].publicId == p { assert SameEvent(db.events[id], db'.events[id]); }
  }

  /** An event write to tenant t is refused where t is archived. */
  lemma RefusedWhereArchived(y: Txn, o: Obs, db: Db, t: Id)
    requires y.SetStatus? && y.event in db.events && db.events[y.event].tenantId == t && ArchivedIn(db, t)
    ensures Exec(y, Obs(o.now, ReadsOpen(y, db)), db).Refused?
  {
  }

  lemma StatusArchivesNothing(y: Txn, o: Obs, db: Db, t: Id)
    requires y.SetStatus? && Exec(y, o, db).Committed?
    ensures ArchivedIn(Exec(y, o, db).db, t) <==> ArchivedIn(db, t)
  {
  }

  /** From its archival of t on, the run leaves room for the write. */
  ghost predicate Movable(x: Txn, role: Role, t: Id, ps: seq<Atomic>, db: Db) {
    WritesEvent(x) && DbOk(db) && ParamsOk(db, x) && Runs(ps, db) && ReliesAlong(x, role, t, ps, db) &&
    CanWrite(x, role, RunApart(ps, db)) && (ArchivedIn(db, t) || (ps != [] && ArchivedIn(Apart(ps[0], db), t)))
  }

  lemma MovableStep(x: Txn, role: Role, t: Id, ps: seq<Atomic>, db: Db)
    requires Movable(x, role, t, ps, db)
    ensures DbOk(With(x, role, db)) && Forward(db, With(x, role, db)) && WritesEvent(x)
    ensures ps != [] ==>
              var a, db1 := ps[0], Apart(ps[0], db);
              Movable(x, role, t, ps[1..], db1) && Apart(a, With(x, role, db)) == With(x, role, db1) &&
              Admissible(a, With(x, role, db)) && AnsweredAlike(a, With(x, role, db))
  {
    hide DbOk, ParamsOk, Admissible, AnsweredAlike, Forward, ArchivedIn, CanWrite, With, Exec, ReadsOpen, ExecRegister, Sweep, Relies;
    WritableAlong(x, role, t, ps, db);
    WithKeeps(x, role, db);
    if ps != [] {
      var a, db1 := ps[0], Apart(ps[0], db);
      AtomicKeeps(a, db);
      ParamsStable(db, db1, x);
      WritableAlong(x, role, t, ps[1..], db1);
      if a.AtomicTxn? && x.SetStatus? && a.txn.SetStatus? && a.txn.event == x.event {
        SameStatusRefused(x, role, t, a, db);
      }
      AtomicCommutes(x, role, a, db);
      if ArchivedIn(db, t) { ArchivedStays(db, db1, t); }
    }
  }

  /** From the archival on, the run is the same with the write made. */
  lemma {:induction false} RunCommutes(x: Txn, role: Role, t: Id, ps: seq<Atomic>, db: Db)
    requires Movable(x, role, t, ps, db)
    ensures Runs(ps, With(x, role, db)) && RunApart(ps, With(x, role, db)) == With(x, role, RunApart(ps, db))
    decreases |ps|
  {
    hide Movable, With, Apart, Admissible, AnsweredAlike, DbOk, Forward;
    MovableStep(x, role, t, ps, db);
    if ps != [] { RunCommutes(x, role, t, ps[1..], Apart(ps[0], db)); }
  }

  lemma SameStatusRefused(x: Txn, role: Role, t: Id, a: Atomic, db: Db)
    requires a.AtomicTxn? && x.SetStatus? && a.txn.SetStatus? && a.txn.event == x.event && Relies(x, role, t, db)
    requires ArchivedIn(db, t) || ArchivedIn(Apart(a, db), t)
    ensures Answered(a, db).Refused?
  {
    hide Exec, ReadsOpen, ArchivedIn;
    var o := Obs(a.obs.now, ReadsOpen(a.txn, db));
    if Exec(a.txn, o, db).Committed? { StatusArchivesNothing(a.txn, o, db, t); }
    RefusedIfArchived(a.txn, a.obs, db, t);
  }

  lemma RefusedIfArchived(y: Txn, o: Obs, db: Db, t: Id)
    requires y.SetStatus? && y.event in db.events && db.events[y.event].tenantId == t
    ensures ArchivedIn(db, t) ==> Exec(y, Obs(o.now, ReadsOpen(y, db)), db).Refused?
  {
    hide Exec;
    if ArchivedIn(db, t) { RefusedWhereArchived(y, o, db, t); }
  }

  lemma OpenBefore(x: Txn, role: Role, t: Id, db: Db)
    requires WritesEvent(x) && DbOk(db) && ParamsOk(db, x) && Relies(x, role, t, db) && !ArchivedIn(db, t)
    ensures ReadsOpen(x, db)
  {
    hide DbOk;
    if x.SetStatus? { EventHome(db, x.event); }
  }

  /** The run with the write put in before the archival ends in the same tables with the write made. */
  lemma {:induction false} InsertionRuns(a: Atomic, role: Role, t: Id, ps: seq<Atomic>, db: Db)
    requires a.AtomicTxn? && WritesEvent(a.txn) && a.reply == Success
    requires DbOk(db) && Runs(ps, db) && Ready(a.txn, role, t, ps, db) && CanWrite(a.txn, role, RunApart(ps, db))
    requires !ArchivedIn(db, t) && ArchivedIn(RunApart(ps, db), t)
    ensures var qs := BeforeArchival(a, t, ps, db); Runs(qs, db) && RunApart(qs, db) == With(a.txn, role, RunApart(ps, db))
    decreases |ps|
  {
    hide DbOk, ParamsOk, Admissible, AnsweredAlike, Forward, ArchivedIn, CanWrite, With, Apart, Relies, ReliesAlong;
    var x, db1 := a.txn, Apart(ps[0], db);
    if Archives(t, db, db1) {
      WritableAlong(x, role, t, ps, db);
      WriteHere(a, role, t, ps, db);
      RunCommutes(x, role, t, ps, db);
      RunsConcat([a], ps, db);
      RunsOne(a, db);
    } else {
      AtomicKeeps(ps[0], db);
      InsertionRuns(a, role, t, ps[1..], db1);
      var rest := BeforeArchival(a, t, ps[1..], db1);
      RunsConcat([ps[0]], rest, db);
      RunsOne(ps[0], db);
    }
  }

  lemma WriteHere(a: Atomic, role: Role, t: Id, ps: seq<Atomic>, db: Db)
    requires a.AtomicTxn? && WritesEvent(a.txn) && a.reply == Success && DbOk(db) && ParamsOk(db, a.txn)
    requires ReliesAlong(a.txn, role, t, ps, db) && CanWrite(a.txn, role, db) && !ArchivedIn(db, t)
    ensures Admissible(a, db) && AnsweredAlike(a, db) && Apart(a, db) == With(a.txn, role, db)
  {
    hide DbOk, ParamsOk, Exec, ArchivedIn, CanWrite, With, ReadsOpen, Relies;
    OpenBefore(a.txn, role, t, db);
    WriteAnswers(a.txn, role, db, a.obs.now);
  }

  // ---------------------------------------------------------------- what others rely on is still there

  lemma ReliesWith(x: Txn, role: Role, t: Id, db: Db, y: Txn, role': Role)
    requires Relies(x, role, t, db) && Forward(db, With(y, role', db)) && WritesEvent(y)
    ensures Relies(x, role, t, With(y, role', db))
  {
    SameMembers(y, role', db);
    hide With;
  }

  lemma {:induction false} ReliesAlongWith(x: Txn, role: Role, t: Id, ps: seq<Atomic>, db: Db, y: Txn, role': Role, t': Id)
    requires ReliesAlong(x, role, t, ps, db) && Movable(y, role', t', ps, db)
    ensures ReliesAlong(x, role, t, ps, With(y, role', db))
    decreases |ps|
  {
    hide Movable, With, Apart, Relies, DbOk, Forward, Admissible, AnsweredAlike;
    MovableStep(y, role', t', ps, db);
    ReliesWith(x, role, t, db, y, role');
    if ps != [] { ReliesAlongWith(x, role, t, ps[1..], Apart(ps[0], db), y, role', t'); }
  }

  lemma {:induction false} ReadyWith(x: Txn, role: Role, t: Id, ps: seq<Atomic>, db: Db, y: Txn, role': Role, t': Id)
    requires Ready(x, role, t, ps, db) && Movable(y, role', t', ps, db)
    ensures Ready(x, role, t, ps, With(y, role', db))
    decreases |ps|
  {
    hide Movable, With, Apart, Relies, ReliesAlong, DbOk, Forward, Admissible, AnsweredAlike, ParamsOk;
    MovableStep(y, role', t', ps, db);
    if ps != [] {
      var db1 := Apart(ps[0], db);
      SameArchived(y, role', db, t);
      SameArchived(y, role', db1, t);
      if Archives(t, db, db1) {
        ParamsStable(db, With(y, role', db), x);
        ReliesAlongWith(x, role, t, ps, db, y, role', t');
      } else {
        ReadyWith(x, role, t, ps[1..], db1, y, role', t');
      }
    }
  }

  lemma SameArchived(y: Txn, role: Role, db: Db, t: Id)
    ensures ArchivedIn(With(y, role, db), t) <==> ArchivedIn(db, t)
  {
    SameMembers(y, role, db);
    hide With;
  }

  lemma {:induction false} ReliesInsert(x: Txn, role: Role, t: Id, a: Atomic, role': Role, t': Id, ps: seq<Atomic>, db: Db)
    requires a.AtomicTxn? && WritesEvent(a.txn) && a.reply == Success && ReliesAlong(x, role, t, ps, db)
    requires DbOk(db) && Runs(ps, db) && Ready(a.txn, role', t', ps, db) && CanWrite(a.txn, role', RunApart(ps, db))
    requires !ArchivedIn(db, t') && ArchivedIn(RunApart(ps, db), t')
    ensures ReliesAlong(x, role, t, BeforeArchival(a, t', ps, db), db)
    decreases |ps|
  {
    hide DbOk, ParamsOk, Admissible, AnsweredAlike, ArchivedIn, CanWrite, With, Apart, Relies, Forward;
    var db1, qs := Apart(ps[0], db), BeforeArchival(a, t', ps, db);
    if Archives(t', db, db1) {
      WritableAlong(a.txn, role', t', ps, db);
      WriteHere(a, role', t', ps, db);
      ReliesAlongWith(x, role, t, ps, db, a.txn, role', t');
      assert qs[0] == a && qs[1..] == ps;
    } else {
      AtomicKeeps(ps[0], db);
      ReliesInsert(x, role, t, a, role', t', ps[1..], db1);
      assert qs[0] == ps[0] && qs[1..] == BeforeArchival(a, t', ps[1..], db1);
    }
  }

  /** Putting one write in earlier leaves every other one under way ready. */
  lemma {:induction false} ReadyInsert(x: Txn, role: Role, t: Id, a: Atomic, role': Role, t': Id, ps: seq<Atomic>, db: Db)
    requires a.AtomicTxn? && WritesEvent(a.txn) && a.reply == Success && Ready(x, role, t, ps, db)
    requires DbOk(db) && Runs(ps, db) && Ready(a.txn, role', t', ps, db) && CanWrite(a.txn, role', RunApart(ps, db))
    requires !ArchivedIn(db, t') && ArchivedIn(RunApart(ps, db), t')
    ensures Ready(x, role, t, BeforeArchival(a, t', ps, db), db)
    decreases |ps|
  {
    hide DbOk, ParamsOk, Admissible, AnsweredAlike, ArchivedIn, CanWrite, With, Apart, Relies, ReliesAlong, Forward;
    var db1, qs := Apart(ps[0], db), BeforeArchival(a, t', ps, db);
    if Archives(t', db, db1) {
      WritableAlong(a.txn, role', t', ps, db);
      WriteHere(a, role', t', ps, db);
      SameArchived(a.txn, role', db, t);
      ReadyWith(x, role, t, ps, db, a.txn, role', t');
      assert qs[0] == a && qs[1..] == ps;
    } else {
      AtomicKeeps(ps[0], db);
      assert qs[0] == ps[0] && qs[1..] == BeforeArchival(a, t', ps[1..], db1);
      if Archives(t, db, db1) {
        ReliesInsert(x, role, t, a, role', t', ps, db);
      } else {
        ReadyInsert(x, role, t, a, role', t', ps[1..], db1);
      }
    }
  }

  // ---------------------------------------------------------------- the guard's verdict and the state

  lemma OpenMatters(x: Txn, o: Obs, open: bool, db: Db)
    requires !WritesEvent(x) || o.open == open
    ensures Exec(x, o, db) == Exec(x, Obs(o.now, open), db)
  {
    assert o == Obs(o.now, o.open);
  }

  /** A transaction that is refused is refused also where it stands, for the same reason unless a
      generated identifier was taken. */
  lemma RefusedWhereItStands(x: Txn, o: Obs, db: Db)
    requires DbOk(db) && ParamsOk(db, x) && Exec(x, o, db).Refused? && (ReadsOpen(x, db) ==> o.open)
    ensures var e, there := Exec(x, o, db).error, Exec(x, Obs(o.now, ReadsOpen(x, db)), db);
            there == Refused(e) || (there.Refused? && x.NewEvent? && e in {Internal, EventPublicIDExists})
  {
    hide DbOk;
    if !WritesEvent(x) || o.open == ReadsOpen(x, db) {
      OpenMatters(x, o, ReadsOpen(x, db), db);
    } else if x.NewEvent? && MemberKey(x.tenant, x.subject) in db.members {
      MemberHome(db, MemberKey(x.tenant, x.subject));
    }
  }

  /** One that commits commits where it stands, unless it writes an event of an archived tenant. */
  lemma CommittedWhereItStands(x: Txn, o: Obs, db: Db)
    requires DbOk(db) && ParamsOk(db, x) && Exec(x, o, db).Committed? && !(WritesEvent(x) && ArchivedIn(db, TenantOfEvent(x, db)))
    ensures Exec(x, Obs(o.now, ReadsOpen(x, db)), db) == Exec(x, o, db)
  {
    hide DbOk;
    if x.SetStatus? { EventHome(db, x.event); }
    OpenMatters(x, o, ReadsOpen(x, db), db);
  }

  lemma CommittedWrites(x: Txn, o: Obs, db: Db)
    requires WritesEvent(x) && DbOk(db) && Exec(x, o, db).Committed?
    ensures var role := if x.NewEvent? then db.members[MemberKey(x.tenant, x.subject)].role else RoleUnspecified;
            CanWrite(x, role, db) && Exec(x, o, db).db == With(x, role, db)
  {
    hide DbOk;
    if x.NewEvent? { MemberHome(db, MemberKey(x.tenant, x.subject)); }
  }

  // ---------------------------------------------------------------- every schedule has such an order

  function SeenRole(seen: Seen): Role { if seen.SawRole? then seen.role else RoleUnspecified }

  predicate UnderWay(q: Req) { q.phase.Run? && WritesEvent(q.phase.txn) && PastGuard(q.phase.txn, q.phase.stage) }

  /** An event write past its guard could still be put in before the archival of its tenant. */
  ghost predicate ReqReady(q: Req, db: Db, ps: seq<Atomic>) {
    UnderWay(q) ==> Ready(q.phase.txn, SeenRole(q.phase.seen), TenantOfEvent(q.phase.txn, db), ps, EmptyDb)
  }

  ghost predicate AllReady(s: State, ps: seq<Atomic>) { forall r :: r in s.reqs ==> ReqReady(s.reqs[r], s.db, ps) }

  /** ps, run one at a time, has led to s. */
  ghost predicate LedTo(ps: seq<Atomic>, s: State) {
    Runs(ps, EmptyDb) && RunApart(ps, EmptyDb) == s.db && AllReady(s, ps)
  }

  lemma StageRelies(c: Config, db: Db, x: Txn, st: Stage, seen: Seen, held: set<Lock>, pending: seq<Write>)
    requires ParamsOk(db, x) && StageOk(c, db, x, st, seen, held, pending) && WritesEvent(x) && PastGuard(x, st)
    ensures Relies(x, SeenRole(seen), TenantOfEvent(x, db), db)
  {
  }

  lemma SameTenantOfEvent(x: Txn, db: Db, db': Db)
    requires Forward(db, db') && (x.SetStatus? ==> x.event in db.events)
    ensures TenantOfEvent(x, db') == TenantOfEvent(x, db)
  {
    if x.SetStatus? { assert SameEvent(db.events[x.event], db'.events[x.event]); }
  }

  lemma OpenIsNotArchived(x: Txn, db: Db)
    requires WritesEvent(x) && ReadsOpen(x, db)
    ensures !ArchivedIn(db, TenantOfEvent(x, db))
  {
  }

  lemma ExecutePastGuard(c: Config, db: Db, x: Txn, st: Stage, seen: Seen, held: set<Lock>, pending: seq<Write>, clock: int)
    requires StageOk(c, db, x, st, seen, held, pending) && st != CommitPoint && WritesEvent(x) && Execute(x, st, seen, db, clock).Go?
    requires PastGuard(x, Execute(x, st, seen, db, clock).stage)
    ensures if PastGuard(x, st) then Execute(x, st, seen, db, clock).seen == seen else ReadsOpen(x, db)
  {
  }

  /** A write past its guard after a step was so before, or has just read the tenant as open. */
  lemma UnderWayStep(c: Config, s: State, l: Label, r: nat)
    requires Inv(c, s) && r in Next(c, s, l).reqs && UnderWay(Next(c, s, l).reqs[r])
    ensures r in s.reqs && s.reqs[r].phase.Run? && s.reqs[r].phase.txn == Next(c, s, l).reqs[r].phase.txn
    ensures var q, q' := s.reqs[r].phase, Next(c, s, l).reqs[r].phase;
            (UnderWay(s.reqs[r]) && q.seen == q'.seen) || (Next(c, s, l).db == s.db && ReadsOpen(q.txn, s.db))
  {
    hide DbOk, LocksOk, ParamsOk, StageOk, Gate, GateEventTenant, Wants, Execute, ExecRegister, Sweep, SweepFree, NewTenantRow,
         ApplyAll, Free,
         ReadsOpen;
    if r in s.reqs && l == Act(r) {
      assert ReqOk(c, s.db, s.reqs[r]);
      if s.reqs[r].phase.Run? {
        var Run(x, st, seen, held, pending) := s.reqs[r].phase;
        var e := Execute(x, st, seen, s.db, s.clock);
        if st != CommitPoint && e.Go? && WritesEvent(x) && PastGuard(x, e.stage) {
          ExecutePastGuard(c, s.db, x, st, seen, held, pending, s.clock);
        }
      } else {
        NoGuardAtFirst(c, s, r);
      }
    }
  }

  lemma NoGuardAtFirst(c: Config, s: State, r: nat)
    requires r in s.reqs && !s.reqs[r].phase.Run?
    ensures r in Next(c, s, Act(r)).reqs ==> !UnderWay(Next(c, s, Act(r)).reqs[r])
  {
    hide Gate, GateEventTenant, ExecRegister, Sweep, SweepFree, NewTenantRow;
  }

  /** What a step that completes a transaction says of it. */
  lemma PointFacts(c: Config, s: State, l: Label)
    requires Inv(c, s) && Point(c, s, l) != []
    ensures var a := Point(c, s, l)[0];
            Point(c, s, l) == [a] && Admissible(a, s.db) && SameReply(a, s.db) && Next(c, s, l).db == RunAlone(a, s.db) &&
            (a.AtomicTxn? ==> (ReadsOpen(a.txn, s.db) ==> a.obs.open))
    ensures var a := Point(c, s, l)[0];
            a.AtomicTxn? && a.reply == Success && WritesEvent(a.txn) ==>
              a.request in s.reqs && UnderWay(s.reqs[a.request]) && s.reqs[a.request].phase.txn == a.txn
  {
    hide Inv, Next, RunAlone, SameReply, Admissible, ReadsOpen;
    StepAtomic(c, s, l);
    PointShape(c, s, l);
    OneAtomic(Point(c, s, l)[0], s.db);
  }

  lemma PointShape(c: Config, s: State, l: Label)
    requires Inv(c, s) && Point(c, s, l) != []
    ensures var a := Point(c, s, l)[0];
            Point(c, s, l) == [a] && Admissible(a, s.db) && (a.AtomicTxn? ==> (ReadsOpen(a.txn, s.db) ==> a.obs.open)) &&
            (a.AtomicTxn? && a.reply == Success && WritesEvent(a.txn) ==>
               a.request in s.reqs && UnderWay(s.reqs[a.request]) && s.reqs[a.request].phase.txn == a.txn)
  {
    hide DbOk, LocksOk, ParamsOk, StageOk, Gate, GateEventTenant, Wants, Execute, ExecRegister, SweepFree;
    assert ReqOk(c, s.db, s.reqs[l.request]);
  }

  lemma Appends(a: Atomic, db: Db)
    requires DbOk(db) && Admissible(a, db) && SameReply(a, db) && !Overtaken(a, db)
    requires a.AtomicTxn? ==> (ReadsOpen(a.txn, db) ==> a.obs.open)
    ensures AnsweredAlike(a, db) && Apart(a, db) == RunAlone(a, db)
  {
    hide DbOk, ParamsOk, Exec, ExecRegister, Sweep, ReadsOpen, PendingRow, ArchivedIn, TenantOfEvent;
    if a.AtomicTxn? {
      if Exec(a.txn, a.obs, db).Committed? { CommittedWhereItStands(a.txn, a.obs, db); }
      else { RefusedWhereItStands(a.txn, a.obs, db); }
    }
  }

  lemma StillReady(c: Config, s: State, l: Label, ps: seq<Atomic>)
    requires Inv(c, s) && LedTo(ps, s) && Next(c, s, l).db == s.db
    ensures LedTo(ps, Next(c, s, l))
  {
    hide Inv, Next, Runs, RunApart, Ready, ReadsOpen, TenantOfEvent;
    var s' := Next(c, s, l);
    forall r | r in s'.reqs ensures ReqReady(s'.reqs[r], s'.db, ps) {
      if UnderWay(s'.reqs[r]) {
        UnderWayStep(c, s, l, r);
        var x, role := s'.reqs[r].phase.txn, SeenRole(s'.reqs[r].phase.seen);
        assert ReqReady(s.reqs[r], s.db, ps);
        if !(UnderWay(s.reqs[r]) && s.reqs[r].phase.seen == s'.reqs[r].phase.seen) {
          OpenIsNotArchived(x, s.db);
          EmptyOk();
          OpenIsReady(x, role, TenantOfEvent(x, s.db), ps, EmptyDb);
        }
      }
    }
  }

  lemma EmptyOk()
    ensures DbOk(EmptyDb) && forall t :: !ArchivedIn(EmptyDb, t)
  {
  }

  /** What a write under way relies on, before and after a step. */
  lemma UnderWayRelies(c: Config, s: State, l: Label, r: nat)
    requires Inv(c, s) && r in Next(c, s, l).reqs && UnderWay(Next(c, s, l).reqs[r])
    requires r in s.reqs && UnderWay(s.reqs[r]) && s.reqs[r].phase.seen == Next(c, s, l).reqs[r].phase.seen
    requires s.reqs[r].phase.txn == Next(c, s, l).reqs[r].phase.txn
    ensures var x, role := s.reqs[r].phase.txn, SeenRole(s.reqs[r].phase.seen);
            var t := TenantOfEvent(x, s.db);
            ParamsOk(s.db, x) && TenantOfEvent(x, Next(c, s, l).db) == t && Relies(x, role, t, s.db) && Relies(x, role, t, Next(c, s, l).db)
  {
    hide DbOk, LocksOk, StageOk, Next, Relies, Forward;
    var s' := Next(c, s, l);
    NextKeepsInv(c, s, l);
    assert ReqOk(c, s.db, s.reqs[r]) && ReqOk(c, s'.db, s'.reqs[r]);
    var Run(x, st, seen, held, pending) := s.reqs[r].phase;
    var Run(_, st', _, held', pending') := s'.reqs[r].phase;
    StageRelies(c, s.db, x, st, seen, held, pending);
    StageRelies(c, s'.db, x, st', seen, held', pending');
    SameTenantOfEvent(x, s.db, s'.db);
  }

  lemma AppendStep(c: Config, s: State, l: Label, ps: seq<Atomic>, a: Atomic)
    requires Inv(c, s) && LedTo(ps, s) && Point(c, s, l) == [a] && !Overtaken(a, s.db)
    ensures LedTo(ps + [a], Next(c, s, l))
  {
    hide Inv, Next, Point, Runs, RunApart, Apart, Ready, ReadsOpen, TenantOfEvent, Overtaken, Admissible, AnsweredAlike,
         SameReply, Relies, ParamsOk;
    var s' := Next(c, s, l);
    PointFacts(c, s, l);
    InvDb(c, s);
    Appends(a, s.db);
    RunsConcat(ps, [a], EmptyDb);
    RunsOne(a, s.db);
    forall r | r in s'.reqs ensures ReqReady(s'.reqs[r], s'.db, ps + [a]) {
      if UnderWay(s'.reqs[r]) {
        UnderWayStep(c, s, l, r);
        var x, role := s'.reqs[r].phase.txn, SeenRole(s'.reqs[r].phase.seen);
        assert ReqReady(s.reqs[r], s.db, ps);
        if UnderWay(s.reqs[r]) && s.reqs[r].phase.seen == s'.reqs[r].phase.seen {
          UnderWayRelies(c, s, l, r);
          ReadyAppend(x, role, TenantOfEvent(x, s.db), ps, a, EmptyDb);
        } else {
          OpenIsNotArchived(x, s.db);
          EmptyOk();
          OpenIsReady(x, role, TenantOfEvent(x, s'.db), ps + [a], EmptyDb);
        }
      }
    }
  }

  lemma InsertStep(c: Config, s: State, l: Label, ps: seq<Atomic>, a: Atomic)
    requires Inv(c, s) && LedTo(ps, s) && Point(c, s, l) == [a] && Overtaken(a, s.db)
    ensures LedTo(BeforeArchival(a, TenantOfEvent(a.txn, s.db), ps, EmptyDb), Next(c, s, l))
  {
    hide Inv, DbOk, Next, Point, Runs, RunApart, Apart, Ready, ReadsOpen, Admissible, Exec, CanWrite, With, Relies, ParamsOk, Forward;
    var s', x, t := Next(c, s, l), a.txn, TenantOfEvent(a.txn, s.db);
    PointFacts(c, s, l);
    InvDb(c, s);
    EmptyOk();
    CommittedWrites(x, a.obs, s.db);
    assert ReqReady(s.reqs[a.request], s.db, ps);
    var role := SeenRole(s.reqs[a.request].phase.seen);
    CommitterRole(c, s, a.request);
    SameWriteByRole(x, role, s.db);
    InsertionRuns(a, role, t, ps, EmptyDb);
    var qs := BeforeArchival(a, t, ps, EmptyDb);
    NextKeepsInv(c, s, l);
    forall r | r in s'.reqs ensures ReqReady(s'.reqs[r], s'.db, qs) {
      if UnderWay(s'.reqs[r]) {
        UnderWayStep(c, s, l, r);
        var y, role' := s'.reqs[r].phase.txn, SeenRole(s'.reqs[r].phase.seen);
        assert ReqReady(s.reqs[r], s.db, ps);
        if UnderWay(s.reqs[r]) && s.reqs[r].phase.seen == s'.reqs[r].phase.seen {
          UnderWayRelies(c, s, l, r);
          ReadyInsert(y, role', TenantOfEvent(y, s.db), a, role, t, ps, EmptyDb);
        } else {
          OpenIsNotArchived(y, s.db);
          OpenIsReady(y, role', TenantOfEvent(y, s'.db), qs, EmptyDb);
        }
      }
    }
  }

  /** The role a creation has read is the one its write stores. */
  lemma CommitterRole(c: Config, s: State, r: nat)
    requires Inv(c, s) && r in s.reqs && UnderWay(s.reqs[r])
    ensures var x, role := s.reqs[r].phase.txn, SeenRole(s.reqs[r].phase.seen);
            x.NewEvent? ==> MemberKey(x.tenant, x.subject) in s.db.members && s.db.members[MemberKey(x.tenant, x.subject)].role == role
  {
    hide DbOk, LocksOk, StageOk;
    assert ReqOk(c, s.db, s.reqs[r]);
    var Run(x, st, seen, held, pending) := s.reqs[r].phase;
    StageRelies(c, s.db, x, st, seen, held, pending);
  }

  lemma SameWriteByRole(x: Txn, role: Role, db: Db)
    requires WritesEvent(x) && (x.NewEvent? ==> MemberKey(x.tenant, x.subject) in db.members)
    requires x.NewEvent? ==> db.members[MemberKey(x.tenant, x.subject)].role == role
    ensures var stored := if x.NewEvent? then db.members[MemberKey(x.tenant, x.subject)].role else RoleUnspecified;
            (CanWrite(x, stored, db) ==> CanWrite(x, role, db)) && With(x, stored, db) == With(x, role, db)
  {
  }

  lemma {:induction false} OrderLeads(c: Config, clock: int, ls: seq<Label>)
    ensures LedTo(SerialOrder(c, clock, ls), After(c, Init(clock), ls))
    ensures multiset(SerialOrder(c, clock, ls)) == multiset(Points(c, Init(clock), ls))
    decreases |ls|
  {
    hide Inv, Next, Point, LedTo, Overtaken, TenantOfEvent;
    if ls == [] {
      NothingYet(c, clock);
    } else {
      var n := |ls| - 1;
      var ps, s := SerialOrder(c, clock, ls[..n]), After(c, Init(clock), ls[..n]);
      var p := Point(c, s, ls[n]);
      OrderLeads(c, clock, ls[..n]);
      AfterLast(c, Init(clock), ls);
      InitInv(c, clock);
      ScheduleKeepsInv(c, Init(clock), ls[..n]);
      if p == [] {
        QuietStep(c, s, ls[n]);
        StillReady(c, s, ls[n], ps);
        assert ps + p == ps;
      } else {
        PointAtMostOne(c, s, ls[n]);
        assert p == [p[0]];
        if Overtaken(p[0], s.db) {
          OvertakenIsWrite(p[0], s.db);
          InsertStep(c, s, ls[n], ps, p[0]);
          InsertionPermutes(p[0], TenantOfEvent(p[0].txn, s.db), ps, EmptyDb);
        } else {
          AppendStep(c, s, ls[n], ps, p[0]);
        }
      }
    }
  }

  lemma OvertakenIsWrite(a: Atomic, db: Db)
    requires Overtaken(a, db)
    ensures a.AtomicTxn?
  {
  }

  lemma QuietStep(c: Config, s: State, l: Label)
    requires Inv(c, s) && Point(c, s, l) == []
    ensures Next(c, s, l).db == s.db
  {
    hide Inv, Next, Point, RunAlone;
    StepAtomic(c, s, l);
  }

  lemma NothingYet(c: Config, clock: int)
    ensures LedTo([], After(c, Init(clock), []))
  {
  }

  /** Serializability: for every schedule, of any number of requests with any interleaving of their
      statements, there is an order of exactly its transactions and single statements in which, run one
      at a time and each reading everything from the tables it finds, they leave the tables that the
      schedule leaves and answer what their requests were answered; but a creation that was refused over
      a generated identifier may be refused there for another reason. The order is that of the commits
      and refusals, except that an event write whose tenant was archived after its guard comes just
      before that archival. */
  lemma Serializable(c: Config, clock: int, ls: seq<Label>)
    ensures var ps := SerialOrder(c, clock, ls);
            multiset(ps) == multiset(Points(c, Init(clock), ls)) && RunApart(ps, EmptyDb) == After(c, Init(clock), ls).db &&
            Runs(ps, EmptyDb)
  {
    hide Runs, RunApart, SerialOrder, Points, After;
    OrderLeads(c, clock, ls);
  }
}

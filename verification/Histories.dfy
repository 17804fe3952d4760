/** What holds over every run: in each reachable state, and of each step taken there. */
module Histories {
  import opened Domain
  import opened Subdomains
  import opened TenantContext
  import opened Tables
  import opened AtomicLaws
  import opened Machine
  import opened Invariant
  import opened Interference
  import opened Refinement
  import opened Schedules

  /** Some schedule leads from the empty database to s. */
  ghost predicate Reachable(c: Config, s: State) {
    exists clock: int, ls: seq<Label> :: s == After(c, Init(clock), ls)
  }

  lemma ReachableInv(c: Config, s: State)
    requires Reachable(c, s)
    ensures Inv(c, s) && DbOk(s.db)
  {
    hide DbOk, LocksOk, ReqsOk, Next;
    var clock: int, ls: seq<Label> :| s == After(c, Init(clock), ls);
    InitInv(c, clock);
    ScheduleKeepsInv(c, Init(clock), ls);
  }

  // ---------------------------------------------------------------- what a step does to the committed state

  datatype Change =
    | Quiet
    | Commits(request: nat, txn: Txn, obs: Obs)
    | Sweeps(now: int)
    | Registers(id: Id, row: Tenant)

  ghost function ChangeOf(ps: seq<Atomic>): Change {
    if ps == [] then Quiet
    else match ps[0]
         case AtomicTxn(r, x, o, reply) => if reply == Success then Commits(r, x, o) else Quiet
         case AtomicSweep(_, now) => Sweeps(now)
         case AtomicRegister(_, id, row, reply) => if reply == Success then Registers(id, row) else Quiet
         case AtomicReadBack(_, _, _) => Quiet
  }

  /** The transaction that a step commits, if it commits one. */
  ghost function StepOf(c: Config, s: State, l: Label): Change { ChangeOf(Point(c, s, l)) }

  lemma PointIs(c: Config, s: State, l: Label)
    requires Inv(c, s)
    ensures |Point(c, s, l)| <= 1
    ensures StepOf(c, s, l).Commits? ==>
              var ch := StepOf(c, s, l);
              l == Act(ch.request) && ch.request in s.reqs && ParamsOk(s.db, ch.txn) &&
              s.reqs[ch.request].phase.Run? && s.reqs[ch.request].phase.txn == ch.txn && s.reqs[ch.request].phase.stage == CommitPoint
    ensures StepOf(c, s, l).Sweeps? ==>
              l.Act? && l.request in s.reqs && s.reqs[l.request].phase == Sweeping(StepOf(c, s, l).now) && SweepFree(s, StepOf(c, s, l).now)
    ensures StepOf(c, s, l).Registers? ==> PendingRow(StepOf(c, s, l).row)
  {
    hide DbOk, LocksOk, ParamsOk, StageOk, Gate, GateEventTenant, Wants, Execute, ExecRegister, ObsAt, SweepFree;
    if l.Act? && l.request in s.reqs { assert ReqOk(c, s.db, s.reqs[l.request]); }
  }

  /** A step leaves the committed state as it is, or commits one transaction, whole. */
  lemma StepCommits(c: Config, s: State, l: Label)
    requires Inv(c, s)
    ensures var db' := Next(c, s, l).db;
            match StepOf(c, s, l)
            case Quiet => db' == s.db
            case Commits(_, x, o) => ParamsOk(s.db, x) && Exec(x, o, s.db) == Committed(db')
            case Sweeps(now) => db' == Sweep(s.db, now)
            case Registers(id, row) => PendingRow(row) && ExecRegister(s.db, id, row) == Committed(db')
  {
    hide Inv, Next, Point, Exec, ExecRegister, Sweep, ParamsOk, PendingRow;
    PointIs(c, s, l);
    StepAtomic(c, s, l);
    if Point(c, s, l) != [] {
      OneAtomic(Point(c, s, l)[0], s.db);
      assert Point(c, s, l) == [Point(c, s, l)[0]];
    }
  }

  // ---------------------------------------------------------------- the clock of a sweep

  /** A sweep compares against a time that was read before it. */
  predicate TimesOk(s: State) {
    forall r :: r in s.reqs ==>
      (s.reqs[r].phase.Sweeping? ==> s.reqs[r].phase.now <= s.clock) && (s.reqs[r].phase.Swept? ==> s.reqs[r].phase.now <= s.clock)
  }

  lemma NextKeepsTimes(c: Config, s: State, l: Label)
    requires TimesOk(s)
    ensures TimesOk(Next(c, s, l)) && s.clock <= Next(c, s, l).clock
  {
    hide Gate, GateEventTenant, Wants, Execute, ExecRegister, Sweep, SweepFree, NewTenantRow, ApplyAll, Free;
  }

  lemma {:induction false} ScheduleKeepsTimes(c: Config, s: State, ls: seq<Label>)
    requires TimesOk(s)
    ensures TimesOk(After(c, s, ls)) && s.clock <= After(c, s, ls).clock
    decreases |ls|
  {
    hide TimesOk, Next;
    if ls != [] {
      NextKeepsTimes(c, s, ls[0]);
      ScheduleKeepsTimes(c, Next(c, s, ls[0]), ls[1..]);
    }
  }

  lemma ReachableTimes(c: Config, s: State)
    requires Reachable(c, s)
    ensures TimesOk(s)
  {
    hide After;
    var clock: int, ls: seq<Label> :| s == After(c, Init(clock), ls);
    ScheduleKeepsTimes(c, Init(clock), ls);
  }

  lemma ReachesOn(c: Config, s: State, ls: seq<Label>)
    requires Reachable(c, s)
    ensures Reachable(c, After(c, s, ls))
  {
    hide After;
    var clock: int, before: seq<Label> :| s == After(c, Init(clock), before);
    AfterConcat(c, Init(clock), before, ls);
  }

  // ---------------------------------------------------------------- the read-back of a member insert

  lemma NotFoundFromGates(c: Config, clock: int, call: Call, ctx: Ctx, db: Db)
    requires call.AddTenantMember?
    ensures var g := Gate(c, clock, call, ctx, db);
            g != Refuse(MembershipNotFound) && (g.Begin? ==> g.txn.AddMember?) && (g.Begin? || g.Refuse?)
  {
    hide TenantByPublicId, TrimSpace, TenantOf;
  }

  /** What an AddTenantMember request does, by its phase. */
  predicate AddsMember(q: Req) {
    q.call.AddTenantMember? ==>
      q.phase.Start? || q.phase.ReadBack? || q.phase.Done? || (q.phase.Run? && q.phase.txn.AddMember?)
  }

  predicate AddersOk(s: State) { forall r :: r in s.reqs ==> AddsMember(s.reqs[r]) }

  lemma NextKeepsAdders(c: Config, s: State, l: Label)
    requires AddersOk(s)
    ensures AddersOk(Next(c, s, l))
  {
    hide Gate, GateEventTenant, Wants, Execute, ExecRegister, Sweep, SweepFree, NewTenantRow, ApplyAll, Free;
    if l.Act? && l.request in s.reqs {
      var q := s.reqs[l.request];
      assert AddsMember(q);
      if q.call.AddTenantMember? { NotFoundFromGates(c, s.clock, q.call, q.ctx, s.db); }
    }
  }

  lemma {:induction false} ScheduleKeepsAdders(c: Config, s: State, ls: seq<Label>)
    requires AddersOk(s)
    ensures AddersOk(After(c, s, ls))
    decreases |ls|
  {
    hide AddersOk, Next;
    if ls != [] {
      NextKeepsAdders(c, s, ls[0]);
      ScheduleKeepsAdders(c, Next(c, s, ls[0]), ls[1..]);
    }
  }

  predicate ToldNotFound(s: State, r: nat) { r in s.reqs && s.reqs[r].phase == Done(Failure(MembershipNotFound)) }

  /** AddTenantMember answers that there is no such membership exactly when its insert is committed and the
      membership is gone again at the read-back; and the read-back itself changes nothing. */
  lemma ReadBackExactly(c: Config, s: State, l: Label, r: nat)
    requires Reachable(c, s) && r in s.reqs && s.reqs[r].call.AddTenantMember? && !ToldNotFound(s, r)
    ensures ToldNotFound(Next(c, s, l), r) <==>
              l == Act(r) && s.reqs[r].phase.ReadBack? && s.reqs[r].phase.key !in s.db.members
    ensures l == Act(r) && s.reqs[r].phase.ReadBack? ==> Next(c, s, l).db == s.db
  {
    hide Gate, GateEventTenant, Wants, ExecRegister, Sweep, SweepFree, NewTenantRow, ApplyAll, Free, After;
    var clock: int, ls: seq<Label> :| s == After(c, Init(clock), ls);
    ScheduleKeepsAdders(c, Init(clock), ls);
    var q := s.reqs[r];
    assert AddsMember(q);
    if q.phase.Start? { NotFoundFromGates(c, s.clock, q.call, q.ctx, s.db); }
    if q.phase.Run? { AddMemberErrors(q.phase.txn, q.phase.stage, q.phase.seen, s.db, s.clock); }
  }

  lemma AddMemberErrors(x: Txn, st: Stage, seen: Seen, db: Db, clock: int)
    requires x.AddMember?
    ensures st == Mutate ==> Execute(x, st, seen, db, clock) != Fail(MembershipNotFound)
  {
  }

  // ---------------------------------------------------------------- owners

  /** In every reachable state of every interleaving, an owned tenant has a committed owner. */
  lemma OwnedTenantsHaveOwners(c: Config, s: State, t: Id)
    requires Reachable(c, s) && OwnedTenant(s.db, t)
    ensures exists u :: IsOwner(s.db, t, u)
    ensures Owners(s.db, t) != {}
  {
    hide Reachable, Inv, DbOk;
    ReachableInv(c, s);
    OwnerOfOwned(s.db, t);
    var u :| OwnerIn(s.db.members, t, u);
    assert IsOwner(s.db, t, u);
    OwnersMeaning(s.db, t, u);
  }

  lemma LastOwnerFromGates(c: Config, clock: int, call: Call, ctx: Ctx, e: Id, row: Event, db: Db)
    ensures Gate(c, clock, call, ctx, db) != Refuse(LastOwner)
    ensures GateEventTenant(call, ctx, e, row, db) != Refuse(LastOwner)
  {
    hide TenantByPublicId, EventByPublicId, TrimSpace, ValidSubdomain, SubjectOf, TenantOf;
  }

  lemma LastOwnerStage(c: Config, db: Db, x: Txn, st: Stage, seen: Seen, held: set<Lock>, pending: seq<Write>, clock: int)
    requires StageOk(c, db, x, st, seen, held, pending) && st != CommitPoint
    ensures Execute(x, st, seen, db, clock) == Fail(LastOwner) <==>
            st == CountOwners && ChecksLastOwner(x) && |Owners(db, x.tenant)| <= 1
    ensures st == CountOwners ==> ChecksLastOwner(x) && IsOwner(db, x.tenant, x.user)
  {
    hide TenantByPublicId, EventByPublicId, InvitationByToken, InvitationByPublicId, GuardedReady;
  }

  lemma SoleOwner(db: Db, t: Id, u: Id)
    requires IsOwner(db, t, u)
    ensures |Owners(db, t)| <= 1 <==> Owners(db, t) == {u}
  {
    OwnersMeaning(db, t, u);
    SmallSet(Owners(db, t), u);
  }

  /** The step at which request r counts the owners and finds its target alone among them. */
  ghost predicate CountsSoleOwner(s: State, l: Label, r: nat) {
    l == Act(r) && r in s.reqs && s.reqs[r].phase.Run? && s.reqs[r].phase.stage == CountOwners &&
    ChecksLastOwner(s.reqs[r].phase.txn) && Owners(s.db, s.reqs[r].phase.txn.tenant) == {s.reqs[r].phase.txn.user}
  }

  predicate ToldLastOwner(s: State, r: nat) { r in s.reqs && s.reqs[r].phase == Done(Failure(LastOwner)) }

  /** A request is told that the tenant must keep an owner exactly when its target is the sole
      committed owner at the count. */
  lemma LastOwnerExactly(c: Config, s: State, l: Label, r: nat)
    requires Reachable(c, s) && !ToldLastOwner(s, r)
    ensures ToldLastOwner(Next(c, s, l), r) <==> CountsSoleOwner(s, l, r)
  {
    hide Reachable, DbOk, LocksOk, StageOk, ParamsOk, Gate, GateEventTenant, Execute, ExecRegister, Sweep, SweepFree,
         NewTenantRow, Owners;
    ReachableInv(c, s);
    if l == Act(r) && r in s.reqs {
      var q := s.reqs[r];
      assert ReqOk(c, s.db, q);
      match q.phase
      case Run(x, st, seen, held, pending) =>
        if st != CommitPoint { LastOwnerStage(c, s.db, x, st, seen, held, pending, s.clock); }
        if st == CountOwners { SoleOwner(s.db, x.tenant, x.user); }
      case Start => LastOwnerFromGates(c, s.clock, q.call, q.ctx, "", Event("", "", "", "", Draft), s.db);
      case EventSeen(e, row) => LastOwnerFromGates(c, s.clock, q.call, q.ctx, e, row, s.db);
      case Sweeping(_) =>
      case ReadBack(_) =>
      case Swept(_) => RegisterErrors(s.db, q.call, c, q.phase.now);
      case Done(_) =>
    }
  }

  lemma RegisterErrors(db: Db, call: Call, c: Config, now: int)
    ensures call.StartTenantRegistration? ==> ExecRegister(db, call.newId, NewTenantRow(c, call, now)) != Refused(LastOwner)
  {
  }

  // ---------------------------------------------------------------- permissions

  /** The request is past its permission check. */
  predicate Checked(x: Txn, st: Stage) {
    (Guarded(x) && st in {KeepTarget, CountOwners, Mutate, CommitPoint}) || (Administers(x) && st in {Mutate, CommitPoint})
  }

  lemma CheckedStage(c: Config, db: Db, x: Txn, st: Stage, seen: Seen, held: set<Lock>, pending: seq<Write>)
    requires DbOk(db) && StageOk(c, db, x, st, seen, held, pending) && Checked(x, st)
    ensures TargetOf(x, db).Some? && MayWrite(db, TargetOf(x, db).value, x.caller)
  {
    hide DbOk, MayWrite, GuardedReady;
    if Administers(x) { TenantFound(db, seen.tenantId); }
  }

  /** From its permission check to its commit, an administrative write's caller holds a role that
      grants tenant.write in the committed state, whatever else commits in between; in
      particular in the state just before its own commit. */
  lemma PermissionHolds(c: Config, s: State, r: nat)
    requires Reachable(c, s) && r in s.reqs && s.reqs[r].phase.Run?
    requires Checked(s.reqs[r].phase.txn, s.reqs[r].phase.stage)
    ensures var x := s.reqs[r].phase.txn;
            TargetOf(x, s.db).Some? && MayWrite(s.db, TargetOf(x, s.db).value, x.caller)
  {
    hide Reachable, DbOk, LocksOk, StageOk, ParamsOk, TargetOf, MayWrite;
    ReachableInv(c, s);
    assert ReqOk(c, s.db, s.reqs[r]);
    var Run(x, st, seen, held, pending) := s.reqs[r].phase;
    CheckedStage(c, s.db, x, st, seen, held, pending);
  }

  lemma CommitsAreAuthorized(c: Config, s: State, l: Label)
    requires Reachable(c, s) && StepOf(c, s, l).Commits?
    requires Guarded(StepOf(c, s, l).txn) || Administers(StepOf(c, s, l).txn)
    ensures var x := StepOf(c, s, l).txn;
            TargetOf(x, s.db).Some? && MayWrite(s.db, TargetOf(x, s.db).value, x.caller)
  {
    hide Reachable, DbOk, LocksOk, ReqsOk, Point, TargetOf, MayWrite;
    ReachableInv(c, s);
    PointIs(c, s, l);
    PermissionHolds(c, s, l.request);
  }

  // ---------------------------------------------------------------- one tenant at a time

  ghost predicate ChangesOnly(t: Id, db: Db, db': Db) { forall a :: a != t ==> Agree(db, db', a) }

  /** Every step but the registration sweep leaves all tenants but one as they were. */
  lemma StepsTouchOneTenant(c: Config, s: State, l: Label)
    requires Reachable(c, s) && !StepOf(c, s, l).Sweeps?
    ensures exists t :: ChangesOnly(t, s.db, Next(c, s, l).db)
  {
    hide Reachable, Inv, Next, Point, Exec, ExecRegister, Sweep, ParamsOk, PendingRow, DbOk, Forward, Agree,
         TargetOf;
    ReachableInv(c, s);
    StepCommits(c, s, l);
    var db' := Next(c, s, l).db;
    match StepOf(c, s, l)
    case Quiet =>
      forall a ensures Agree(s.db, db', a) { AgreeRefl(s.db, a); }
      assert ChangesOnly("", s.db, db');
    case Commits(_, x, o) =>
      ExecKeeps(x, o, s.db);
      assert ChangesOnly(TargetOf(x, s.db).value, s.db, db');
    case Registers(id, row) =>
      RegisterKeeps(s.db, id, row);
      assert ChangesOnly(id, s.db, db');
  }

  lemma AgreeRefl(db: Db, t: Id)
    ensures Agree(db, db, t)
  {
  }

  // ---------------------------------------------------------------- forward only

  predicate HasSubdomain(db: Db, t: Id, subdomain: string) { t in db.tenants && db.tenants[t].subdomain == Some(subdomain) }

  /** FindTenantPublicIDBySubdomain. */
  ghost function Resolve(db: Db, subdomain: string): Option<Id> {
    if t :| t in db.tenants && db.tenants[t].subdomain == Some(subdomain) then Some(db.tenants[t].publicId) else None
  }

  lemma ResolvesUniquely(db: Db, subdomain: string, t: Id)
    requires DbOk(db) && t in db.tenants && db.tenants[t].subdomain == Some(subdomain)
    ensures Resolve(db, subdomain) == Some(db.tenants[t].publicId)
  {
    var u :| u in db.tenants && db.tenants[u].subdomain == Some(subdomain) && Resolve(db, subdomain) == Some(db.tenants[u].publicId);
    assert u == t;
  }

  /** Once a subdomain resolves to a public ID it resolves to that ID for ever, archived or not, and
      no two tenants ever share one. */
  lemma SubdomainsResolveForever(c: Config, s: State, ls: seq<Label>, subdomain: string)
    requires Reachable(c, s) && Resolve(s.db, subdomain).Some?
    ensures Resolve(After(c, s, ls).db, subdomain) == Resolve(s.db, subdomain)
    ensures forall t, u :: HasSubdomain(s.db, t, subdomain) && HasSubdomain(s.db, u, subdomain) ==> t == u
  {
    hide Reachable, Inv, DbOk;
    ReachableInv(c, s);
    ScheduleKeepsInv(c, s, ls);
    InvDb(c, After(c, s, ls));
    var t :| t in s.db.tenants && s.db.tenants[t].subdomain == Some(subdomain);
    TenantHome(s.db, t);
    assert OwnedIn(s.db.tenants, t);
    ResolvesUniquely(s.db, subdomain, t);
    ResolvesUniquely(After(c, s, ls).db, subdomain, t);
    assert UniqueTenants(s.db.tenants) by { TenantsUnique(s.db); }
  }

  lemma TenantsUnique(db: Db)
    requires DbOk(db)
    ensures UniqueTenants(db.tenants)
  {
  }

  lemma InvDb(c: Config, s: State)
    requires Inv(c, s)
    ensures DbOk(s.db)
  {
  }

  /** An owned tenant stays, with its public ID, name and subdomain, and stays owned; archived, it
      stays archived. */
  lemma TenantsMoveForward(c: Config, s: State, ls: seq<Label>, t: Id)
    requires Reachable(c, s) && OwnedTenant(s.db, t)
    ensures t in After(c, s, ls).db.tenants && TenantForward(s.db.tenants[t], After(c, s, ls).db.tenants[t])
  {
    hide Reachable, Inv, DbOk;
    ReachableInv(c, s);
    ScheduleKeepsInv(c, s, ls);
  }

  /** The plan in force after the successful contract changes of tenant p among the transactions. */
  function LastPlan(ps: seq<Atomic>, p: Id, plan: string): string {
    if ps == [] then plan
    else LastPlan(ps[1..], p,
                  if ps[0].AtomicTxn? && ps[0].reply == Success && ps[0].txn.ChangePlan? && ps[0].txn.publicId == p then
                      ps[0].txn.plan else plan)
  }

  /** Whether tenant p is archived after the successful archivals among the transactions. */
  function EverArchived(ps: seq<Atomic>, p: Id, archived: bool): bool {
    if ps == [] then archived
    else EverArchived(ps[1..], p,
                      archived || (ps[0].AtomicTxn? && ps[0].reply == Success && ps[0].txn.ArchiveTenant? && ps[0].txn.publicId == p))
  }

  lemma AdminStep(c: Config, s: State, l: Label, t: Id)
    requires Inv(c, s) && OwnedTenant(s.db, t)
    ensures OwnedTenant(Next(c, s, l).db, t)
    ensures var was, row := s.db.tenants[t], Next(c, s, l).db.tenants[t];
            row.publicId == was.publicId &&
            row.plan == LastPlan(Point(c, s, l), was.publicId, was.plan) &&
            row.archived == EverArchived(Point(c, s, l), was.publicId, was.archived)
  {
    hide DbOk, LocksOk, ReqsOk, Next, Point, ExecRegister, Sweep, ParamsOk, PendingRow, Exec;
    PointIs(c, s, l);
    StepCommits(c, s, l);
    NextKeepsInv(c, s, l);
    var ps := Point(c, s, l);
    if ps != [] { assert ps[1..] == []; }
    match StepOf(c, s, l)
    case Quiet =>
    case Commits(_, x, o) => AdminWrite(x, o, s.db, t);
    case Sweeps(now) => SweepExact(s.db, now);
    case Registers(id, row) => RegisterRow(s.db, id, row, t);
  }

  lemma RegisterRow(db: Db, id: Id, row: Tenant, t: Id)
    requires t in db.tenants && ExecRegister(db, id, row).Committed?
    ensures ExecRegister(db, id, row).db.tenants == db.tenants[id := row] && id != t
  {
  }

  lemma AdminWrite(x: Txn, o: Obs, db: Db, t: Id)
    requires DbOk(db) && OwnedTenant(db, t) && Exec(x, o, db).Committed?
    ensures t in Exec(x, o, db).db.tenants
    ensures var was, row := db.tenants[t], Exec(x, o, db).db.tenants[t];
            row.plan == (if x.ChangePlan? && x.publicId == was.publicId then x.plan else was.plan) &&
            row.archived == (was.archived || (x.ArchiveTenant? && x.publicId == was.publicId))
  {
    hide DbOk;
    TenantFound(db, t);
  }

  lemma {:induction false} PlansConcat(ps: seq<Atomic>, qs: seq<Atomic>, p: Id, plan: string, archived: bool)
    requires |ps| <= 1
    ensures LastPlan(ps + qs, p, plan) == LastPlan(qs, p, LastPlan(ps, p, plan))
    ensures EverArchived(ps + qs, p, archived) == EverArchived(qs, p, EverArchived(ps, p, archived))
  {
    if ps == [] {
      assert ps + qs == qs;
    } else {
      assert (ps + qs)[0] == ps[0] && (ps + qs)[1..] == qs && ps[1..] == [];
    }
  }

  /** No lost update: however contract changes and archivals of a tenant interleave, the plan is
      the one of the last successful contract change in commit order, and the tenant is archived
      exactly when some archival succeeded. */
  lemma {:induction false} NoLostUpdate(c: Config, s: State, ls: seq<Label>, t: Id)
    requires Inv(c, s) && OwnedTenant(s.db, t)
    ensures var was, row, ps := s.db.tenants[t], After(c, s, ls).db.tenants, Points(c, s, ls);
            t in row && row[t].plan == LastPlan(ps, was.publicId, was.plan) &&
            row[t].archived == EverArchived(ps, was.publicId, was.archived)
    decreases |ls|
  {
    hide Inv, Next, Point;
    if ls != [] {
      var s1, p := Next(c, s, ls[0]), s.db.tenants[t].publicId;
      AdminStep(c, s, ls[0], t);
      NextKeepsInv(c, s, ls[0]);
      NoLostUpdate(c, s1, ls[1..], t);
      PointAtMostOne(c, s, ls[0]);
      PlansConcat(Point(c, s, ls[0]), Points(c, s1, ls[1..]), p, s.db.tenants[t].plan, s.db.tenants[t].archived);
    }
  }

  lemma PointAtMostOne(c: Config, s: State, l: Label)
    requires Inv(c, s)
    ensures |Point(c, s, l)| <= 1
  {
    hide Point;
    PointIs(c, s, l);
  }
}

/** The archive freeze: a request that has not passed its gate when a tenant is archived
    never changes a row of that tenant again. */
module ArchiveFreeze {
  import opened Domain
  import opened Subdomains
  import opened TenantContext
  import opened Tables
  import opened AtomicLaws
  import opened Machine
  import opened Invariant
  import opened Interference
  import opened Refinement
  import opened Schedules
  import opened Histories
  import opened Serialization
  import opened Service

  /** Where a transaction stands that will commit no change to the archived tenant t: its target is
      another tenant, or it is still before the check that will refuse it, or has seen the archive. */
  predicate Harmless(db: Db, t: Id, x: Txn, st: Stage, seen: Seen) {
    match x
    case AcceptInvite(a, _, archived, _, _) => a != t || (archived && st in {TakeAdvisory, FindInvite})
    case ClaimTenant(_, _, _, _, _, _) => st == LockTenant || (seen.SawTenant? && seen.tenantId != t)
    case ChangePlan(_, _, _) => st == LockTenant || (seen.SawTenant? && seen.tenantId != t)
    case ArchiveTenant(_, _) => st == LockTenant || (seen.SawTenant? && seen.tenantId != t)
    case NewEvent(a, _, _, _) => a != t || st in {Authorize, GuardTenant}
    case SetStatus(e, _, _) => st == GuardStatus || (e in db.events && db.events[e].tenantId != t)
    case _ => x.tenant != t
  }

  predicate LateOk(db: Db, t: Id, q: Req) {
    q.phase.Run? ==> Harmless(db, t, q.phase.txn, q.phase.stage, q.phase.seen)
  }

  /** All requests but the early ones. */
  predicate LateReqs(s: State, t: Id, early: set<nat>) {
    forall r :: r in s.reqs && r !in early ==> LateOk(s.db, t, s.reqs[r])
  }

  // ---------------------------------------------------------------- late requests stay harmless

  lemma GateRefusesArchived(c: Config, clock: int, call: Call, ctx: Ctx, db: Db, t: Id)
    requires DbOk(db) && ArchivedIn(db, t)
    ensures var g := Gate(c, clock, call, ctx, db); g.Begin? ==> Harmless(db, t, g.txn, FirstStage(g.txn), Nothing)
  {
    hide DbOk, ParseDisplayName, ValidName, ValidSubdomain, TrimSpace, Ensure, VerifyOwnership, SubjectOf, TenantOf,
         WritableTenant, WritableEvent, EventByPublicId;
  }

  lemma EventGateRefusesArchived(call: Call, ctx: Ctx, e: Id, row: Event, db: Db, t: Id)
    requires DbOk(db) && ArchivedIn(db, t) && EventSeenOk(db, call, e, row)
    ensures var g := GateEventTenant(call, ctx, e, row, db); g.Begin? ==> Harmless(db, t, g.txn, FirstStage(g.txn), Nothing)
  {
    hide DbOk, Ensure, SubjectOf, TenantOf, TenantByPublicId;
    EventHome(db, e);
    TenantFoundEvent(db, e, row);
  }

  lemma TenantFoundEvent(db: Db, e: Id, row: Event)
    requires DbOk(db) && e in db.events && SameEvent(row, db.events[e])
    ensures TenantByPublicId(db, row.tenantPublicId) == Some(row.tenantId)
  {
    hide DbOk;
    EventHome(db, e);
    TenantFound(db, row.tenantId);
  }

  lemma ExecuteStaysHarmless(c: Config, db: Db, t: Id, x: Txn, st: Stage, seen: Seen, held: set<Lock>,
      pending: seq<Write>, clock: int)
    requires DbOk(db) && ArchivedIn(db, t) && ParamsOk(db, x) && StageOk(c, db, x, st, seen, held, pending)
    requires Harmless(db, t, x, st, seen) && st != CommitPoint && Execute(x, st, seen, db, clock).Go?
    ensures var e := Execute(x, st, seen, db, clock); Harmless(db, t, x, e.stage, e.seen)
  {
    hide DbOk, InvitationByToken, InvitationByPublicId, GuardedReady;
  }

  lemma HarmlessStable(db: Db, db': Db, t: Id, x: Txn, st: Stage, seen: Seen)
    requires Forward(db, db') && Harmless(db, t, x, st, seen)
    ensures Harmless(db', t, x, st, seen)
  {
  }

  lemma HarmlessTarget(c: Config, db: Db, t: Id, x: Txn, seen: Seen, held: set<Lock>, pending: seq<Write>)
    requires DbOk(db) && StageOk(c, db, x, CommitPoint, seen, held, pending) && Harmless(db, t, x, CommitPoint, seen)
    ensures TargetOf(x, db) != Some(t)
  {
    hide DbOk, InvitationByToken, InvitationByPublicId, GuardedReady;
    if x.ClaimTenant? || Administers(x) { TenantFound(db, seen.tenantId); }
  }

  /** The step of a late request leaves the archived tenant's rows as they are. */
  lemma LateStepsAreHarmless(c: Config, s: State, l: Label, t: Id, early: set<nat>)
    requires Inv(c, s) && ArchivedIn(s.db, t) && LateReqs(s, t, early) && !(l.Act? && l.request in early)
    ensures Agree(s.db, Next(c, s, l).db, t)
  {
    hide DbOk, LocksOk, StageOk, Harmless, Next, Point, Exec, ExecRegister, Sweep, ParamsOk, PendingRow, Agree,
         TargetOf;
    PointIs(c, s, l);
    StepCommits(c, s, l);
    match StepOf(c, s, l)
    case Quiet => AgreeRefl(s.db, t);
    case Commits(_, x, o) =>
      var Run(_, _, seen, held, pending) := s.reqs[l.request].phase;
      assert ReqOk(c, s.db, s.reqs[l.request]);
      assert LateOk(s.db, t, s.reqs[l.request]);
      HarmlessTarget(c, s.db, t, x, seen, held, pending);
      ExecKeeps(x, o, s.db);
    case Sweeps(now) =>
      SweepExact(s.db, now);
      assert t !in Expired(s.db, now);
    case Registers(id, row) =>
      RegisterRow(s.db, id, row, t);
      RegisterKeeps(s.db, id, row);
  }

  /** What the acting request becomes is late again; every other request is as it was. */
  lemma ActorStaysLate(c: Config, s: State, r: nat, t: Id)
    requires Inv(c, s) && ArchivedIn(s.db, t) && r in s.reqs && LateOk(s.db, t, s.reqs[r])
    ensures var s' := ActStep(c, s, r); r in s'.reqs ==> LateOk(s.db, t, s'.reqs[r])
  {
    hide DbOk, LocksOk, StageOk, Harmless, Gate, GateEventTenant, Execute, Wants, ExecRegister, Sweep, SweepFree,
         ParamsOk, EventSeenOk;
    var q := s.reqs[r];
    assert ReqOk(c, s.db, q);
    match q.phase
    case Start => GateRefusesArchived(c, s.clock, q.call, q.ctx, s.db, t);
    case EventSeen(e, row) => EventGateRefusesArchived(q.call, q.ctx, e, row, s.db, t);
    case Run(x, st, seen, held, pending) =>
      if st != CommitPoint && Execute(x, st, seen, s.db, s.clock).Go? {
        ExecuteStaysHarmless(c, s.db, t, x, st, seen, held, pending, s.clock);
      }
    case _ =>
  }

  /** Taking a lock and being cancelled keep a request late. */
  lemma PassiveStaysLate(c: Config, s: State, l: Label, t: Id)
    requires (l.Take? || l.Abort? || l.Arrive?) && l.request in s.reqs && LateOk(s.db, t, s.reqs[l.request])
    ensures LateOk(s.db, t, Next(c, s, l).reqs[l.request])
  {
    hide Harmless, Wants;
  }

  lemma LateStep(c: Config, s: State, l: Label, t: Id, early: set<nat>)
    requires Inv(c, s) && ArchivedIn(s.db, t) && LateReqs(s, t, early)
    ensures ArchivedIn(Next(c, s, l).db, t) && LateReqs(Next(c, s, l), t, early)
  {
    hide Inv, Harmless, Next, ActStep, ArchivedIn, Forward, LateOk;
    var s' := Next(c, s, l);
    NextKeepsInv(c, s, l);
    StaysArchived(s.db, s'.db, t);
    forall r | r in s'.reqs && r !in early ensures LateOk(s'.db, t, s'.reqs[r]) {
      if r !in s.reqs {
        NewRequests(c, s, l, r);
        StartIsLate(s'.db, t, s'.reqs[r]);
      } else {
        assert LateOk(s.db, t, s.reqs[r]);
        if l.Tick? || l.request != r {
          OthersUnmoved(c, s, l, r);
        } else if l.Act? {
          ActorStaysLate(c, s, r, t);
          assert s' == ActStep(c, s, r) by { ActIs(c, s, l); }
        } else {
          PassiveStaysLate(c, s, l, t);
        }
        LateStable(s.db, s'.db, t, s'.reqs[r]);
      }
    }
  }

  lemma ActIs(c: Config, s: State, l: Label)
    requires l.Act? && l.request in s.reqs
    ensures Next(c, s, l) == ActStep(c, s, l.request)
  {
    hide ActStep;
  }

  lemma StartIsLate(db: Db, t: Id, q: Req)
    requires q.phase.Start?
    ensures LateOk(db, t, q)
  {
  }

  lemma LateStable(db: Db, db': Db, t: Id, q: Req)
    requires LateOk(db, t, q) && Forward(db, db')
    ensures LateOk(db', t, q)
  {
    hide Forward, Harmless;
    if q.phase.Run? { HarmlessStable(db, db', t, q.phase.txn, q.phase.stage, q.phase.seen); }
  }

  lemma StaysArchived(db: Db, db': Db, t: Id)
    requires ArchivedIn(db, t) && Forward(db, db')
    ensures ArchivedIn(db', t)
  {
  }

  lemma {:induction false} LateRun(c: Config, s: State, ls: seq<Label>, t: Id, early: set<nat>)
    requires Inv(c, s) && ArchivedIn(s.db, t) && LateReqs(s, t, early)
    ensures Inv(c, After(c, s, ls)) && ArchivedIn(After(c, s, ls).db, t) && LateReqs(After(c, s, ls), t, early)
    decreases |ls|
  {
    hide Inv, Next, LateReqs, ArchivedIn;
    if ls != [] {
      NextKeepsInv(c, s, ls[0]);
      LateStep(c, s, ls[0], t, early);
      LateRun(c, Next(c, s, ls[0]), ls[1..], t, early);
    }
  }

  /** The transactions under way that are past every check that would refuse them for the archive. */
  predicate EarlyReqs(s: State, t: Id, early: set<nat>) {
    forall r ::
      (r in s.reqs && s.reqs[r].phase.Run? &&
       !Harmless(s.db, t, s.reqs[r].phase.txn, s.reqs[r].phase.stage, s.reqs[r].phase.seen)) ==> r in early
  }

  /** Once a tenant is archived, no step of any other request changes a row of the tenant, in any
      table, for the rest of every run, whatever the early ones still do. */
  lemma ArchivedTenantsAreFrozen(c: Config, s: State, ls: seq<Label>, l: Label, t: Id, early: set<nat>)
    requires Reachable(c, s) && ArchivedIn(s.db, t) && EarlyReqs(s, t, early)
    requires !(l.Act? && l.request in early)
    ensures Agree(After(c, s, ls).db, Next(c, After(c, s, ls), l).db, t)
  {
    hide Reachable, Inv, Next, ArchivedIn, Agree, Harmless;
    ReachableInv(c, s);
    assert LateReqs(s, t, early);
    LateRun(c, s, ls, t, early);
    LateStepsAreHarmless(c, After(c, s, ls), l, t, early);
  }

  lemma {:induction false} QuietRun(c: Config, s: State, ls: seq<Label>, t: Id)
    requires Inv(c, s) && ArchivedIn(s.db, t) && LateReqs(s, t, {})
    ensures Agree(s.db, After(c, s, ls).db, t)
    decreases |ls|
  {
    hide Inv, Next, LateReqs, ArchivedIn, Agree;
    if ls == [] {
      AgreeRefl(s.db, t);
    } else {
      var s1 := Next(c, s, ls[0]);
      NextKeepsInv(c, s, ls[0]);
      LateStep(c, s, ls[0], t, {});
      LateStepsAreHarmless(c, s, ls[0], t, {});
      QuietRun(c, s1, ls[1..], t);
      AgreeTrans(s.db, s1.db, After(c, s1, ls[1..]).db, t);
    }
  }

  /** So when there is none of those at the archival, the tenant's rows never change again. */
  lemma QuietArchivesStay(c: Config, s: State, ls: seq<Label>, t: Id)
    requires Reachable(c, s) && ArchivedIn(s.db, t) && EarlyReqs(s, t, {})
    ensures Agree(s.db, After(c, s, ls).db, t)
  {
    hide Reachable, Inv, ArchivedIn, Agree, Harmless;
    ReachableInv(c, s);
    assert LateReqs(s, t, {});
    QuietRun(c, s, ls, t);
  }

  // ---------------------------------------------------------------- when an event write lands in an archived tenant

  /** Between its guard and what shuts the window: a creation until its key-share lock on the tenant is
      granted, a status change, which locks no tenant, until its commit. */
  predicate InWindow(s: State, r: nat, t: Id) {
    r in s.reqs && UnderWay(s.reqs[r]) && TenantOfEvent(s.reqs[r].phase.txn, s.db) == t &&
    (s.reqs[r].phase.txn.NewEvent? ==> Lock(TenantRow(t), KeyShare) !in Held(s.reqs[r]))
  }

  /** The tenant was archived while r was in its window. */
  ghost predicate Overtook(c: Config, s: State, ls: seq<Label>, r: nat, t: Id)
    decreases |ls|
  {
    ls != [] && ((InWindow(s, r, t) && Archives(t, s.db, Next(c, s, ls[0]).db)) || Overtook(c, Next(c, s, ls[0]), ls[1..], r, t))
  }

  predicate Running(s: State, r: nat) { r in s.reqs && s.reqs[r].phase.Run? }

  predicate HoldsKeyShare(s: State, r: nat, t: Id) { Running(s, r) && Lock(TenantRow(t), KeyShare) in Held(s.reqs[r]) }

  lemma OthersArchiveNothingLocked(c: Config, s: State, q: nat, r: nat, t: Id)
    requires Inv(c, s) && HoldsKeyShare(s, r, t) && t in s.db.tenants && Running(s, q) && q != r && s.reqs[q].phase.stage == CommitPoint
    ensures ArchivedIn(ApplyAll(s.reqs[q].phase.pending, s.db), t) ==> ArchivedIn(s.db, t)
  {
    hide DbOk, StageOk, ParamsOk, ApplyAll;
    var Run(x, st, seen, held, pending) := s.reqs[q].phase;
    assert ReqOk(c, s.db, s.reqs[q]);
    CommitCovered(c, s.db, x, seen, held, pending);
    assert Compatible(Held(s.reqs[q]), Held(s.reqs[r]));
    assert Clash(Lock(TenantRow(t), ForUpdate), Lock(TenantRow(t), KeyShare));
  }

  lemma RunningStays(c: Config, s: State, l: Label, r: nat, t: Id)
    requires HoldsKeyShare(s, r, t) && Running(Next(c, s, l), r)
    ensures HoldsKeyShare(Next(c, s, l), r, t) && (l == Act(r) ==> Next(c, s, l).db == s.db)
  {
    hide Gate, GateEventTenant, Execute, Wants, ExecRegister, Sweep, SweepFree, NewTenantRow, ApplyAll, Free;
  }

  lemma CommitDb(c: Config, s: State, l: Label)
    requires Inv(c, s) && StepOf(c, s, l).Commits?
    ensures Running(s, l.request) && s.reqs[l.request].phase.stage == CommitPoint
    ensures Next(c, s, l).db == ApplyAll(s.reqs[l.request].phase.pending, s.db)
  {
    hide DbOk, LocksOk, ReqsOk, Gate, GateEventTenant, Execute, ApplyAll, Wants, ExecRegister, Sweep, ObsAt;
    PointIs(c, s, l);
  }

  /** While a request holds its key-share lock on an unarchived tenant, the tenant stays unarchived. */
  lemma KeyShareKeepsOpen(c: Config, s: State, l: Label, r: nat, t: Id)
    requires Inv(c, s) && HoldsKeyShare(s, r, t) && OwnedTenant(s.db, t) && !ArchivedIn(s.db, t) && Running(Next(c, s, l), r)
    ensures !ArchivedIn(Next(c, s, l).db, t)
  {
    hide Inv, DbOk, Next, Point, Exec, ExecRegister, Sweep, ParamsOk, ApplyAll, Forward, Agree;
    StepCommits(c, s, l);
    InvDb(c, s);
    match StepOf(c, s, l)
    case Quiet =>
    case Commits(q, _, _) =>
      RunningStays(c, s, l, r, t);
      PointIs(c, s, l);
      CommitDb(c, s, l);
      if q != r { OthersArchiveNothingLocked(c, s, q, r, t); }
    case Sweeps(now) => SweepExact(s.db, now);
    case Registers(id, row) => RegisterRow(s.db, id, row, t);
  }

  /** From the grant of that lock to the commit, whatever else runs. */
  lemma {:induction false} KeyShareKeepsOpenAlong(c: Config, s: State, ls: seq<Label>, r: nat, t: Id)
    requires Inv(c, s) && HoldsKeyShare(s, r, t) && OwnedTenant(s.db, t) && !ArchivedIn(s.db, t) && Running(After(c, s, ls), r)
    ensures !ArchivedIn(After(c, s, ls).db, t)
    decreases |ls|
  {
    hide Inv, Next;
    if ls != [] {
      var s1 := Next(c, s, ls[0]);
      NextKeepsInv(c, s, ls[0]);
      StaysRunning(c, s, ls, r);
      KeyShareKeepsOpen(c, s, ls[0], r, t);
      RunningStays(c, s, ls[0], r, t);
      assert OwnedIn(s1.db.tenants, t);
      KeyShareKeepsOpenAlong(c, s1, ls[1..], r, t);
    }
  }

  predicate PastRunning(s: State, r: nat) { r in s.reqs && (s.reqs[r].phase.ReadBack? || s.reqs[r].phase.Done?) }

  lemma StepEndsForGood(c: Config, s: State, l: Label, r: nat)
    ensures PastRunning(s, r) ==> PastRunning(Next(c, s, l), r)
    ensures Running(s, r) ==>
              (Running(Next(c, s, l), r) && Next(c, s, l).reqs[r].phase.txn == s.reqs[r].phase.txn) || PastRunning(Next(c, s, l), r)
  {
    hide Gate, GateEventTenant, Execute, Wants, ExecRegister, Sweep, SweepFree, NewTenantRow, ApplyAll, Free;
  }

  lemma {:induction false} EndsForGood(c: Config, s: State, ls: seq<Label>, r: nat)
    requires PastRunning(s, r)
    ensures PastRunning(After(c, s, ls), r)
    decreases |ls|
  {
    hide Next, PastRunning;
    if ls != [] {
      StepEndsForGood(c, s, ls[0], r);
      EndsForGood(c, Next(c, s, ls[0]), ls[1..], r);
    }
  }

  /** A transaction that runs before and after has run all along. */
  lemma StaysRunning(c: Config, s: State, ls: seq<Label>, r: nat)
    requires ls != [] && Running(s, r) && Running(After(c, s, ls), r)
    ensures Running(Next(c, s, ls[0]), r) && Next(c, s, ls[0]).reqs[r].phase.txn == s.reqs[r].phase.txn
  {
    hide Next;
    StepEndsForGood(c, s, ls[0], r);
    if PastRunning(Next(c, s, ls[0]), r) { EndsForGood(c, Next(c, s, ls[0]), ls[1..], r); }
  }

  lemma GuardPassed(c: Config, db: Db, x: Txn, st: Stage, seen: Seen, held: set<Lock>, pending: seq<Write>)
    requires ParamsOk(db, x) && StageOk(c, db, x, st, seen, held, pending) && x.NewEvent? && PastGuard(x, st)
    ensures OwnedTenant(db, x.tenant) && (st != InsertEvent ==> Lock(TenantRow(x.tenant), KeyShare) in held)
  {
  }

  /** Past its guard, and its tenant archived. */
  predicate OvertakenNow(s: State, r: nat, t: Id) {
    r in s.reqs && UnderWay(s.reqs[r]) && TenantOfEvent(s.reqs[r].phase.txn, s.db) == t && ArchivedIn(s.db, t)
  }

  lemma GuardStaysPassed(c: Config, s: State, l: Label, r: nat)
    requires Inv(c, s) && r in s.reqs && UnderWay(s.reqs[r]) && Running(Next(c, s, l), r)
    ensures UnderWay(Next(c, s, l).reqs[r]) && Next(c, s, l).reqs[r].phase.txn == s.reqs[r].phase.txn
  {
    hide DbOk, LocksOk, ParamsOk, Gate, GateEventTenant, Wants, ExecRegister, Sweep, SweepFree, NewTenantRow, ApplyAll, Free,
         TenantByPublicId, InvitationByToken, InvitationByPublicId, EventPublicIdTaken, GuardedOk, AcceptOk, ClaimOk, AdminOk;
    assert ReqOk(c, s.db, s.reqs[r]);
  }

  lemma EventKnown(c: Config, s: State, r: nat)
    requires Inv(c, s) && Running(s, r)
    ensures s.reqs[r].phase.txn.SetStatus? ==> s.reqs[r].phase.txn.event in s.db.events
  {
    hide DbOk, LocksOk, StageOk;
    assert ReqOk(c, s.db, s.reqs[r]);
  }

  lemma StepOvertakes(c: Config, s: State, l: Label, r: nat, t: Id)
    requires Inv(c, s) && (Running(s, r) ==> Running(Next(c, s, l), r))
    ensures OvertakenNow(Next(c, s, l), r, t) <==>
              OvertakenNow(s, r, t) || (InWindow(s, r, t) && Archives(t, s.db, Next(c, s, l).db))
  {
    hide Inv, Next, Forward, ReadsOpen, ArchivedIn, TenantOfEvent;
    var s1 := Next(c, s, l);
    NextKeepsInv(c, s, l);
    if r in s.reqs && UnderWay(s.reqs[r]) {
      GuardStaysPassed(c, s, l, r);
      EventKnown(c, s, r);
      var x := s.reqs[r].phase.txn;
      SameTenantOfEvent(x, s.db, s1.db);
      if ArchivedIn(s.db, t) { ArchivedStays(s.db, s1.db, t); }
      if TenantOfEvent(x, s.db) == t && !InWindow(s, r, t) && !ArchivedIn(s.db, t) {
        WindowShut(c, s, l, r, t);
      }
    } else if r in s1.reqs && UnderWay(s1.reqs[r]) {
      UnderWayStep(c, s, l, r);
      OpenIsNotArchived(s1.reqs[r].phase.txn, s.db);
    }
  }

  lemma WindowShut(c: Config, s: State, l: Label, r: nat, t: Id)
    requires Inv(c, s) && r in s.reqs && UnderWay(s.reqs[r]) && TenantOfEvent(s.reqs[r].phase.txn, s.db) == t && !InWindow(s, r, t)
    requires !ArchivedIn(s.db, t) && Running(Next(c, s, l), r)
    ensures !ArchivedIn(Next(c, s, l).db, t)
  {
    hide DbOk, LocksOk, StageOk, Next, ParamsOk;
    assert ReqOk(c, s.db, s.reqs[r]);
    var Run(x, st, seen, held, pending) := s.reqs[r].phase;
    GuardPassed(c, s.db, x, st, seen, held, pending);
    KeyShareKeepsOpen(c, s, l, r, t);
  }

  lemma {:induction false} OvertakenAlong(c: Config, s: State, ls: seq<Label>, r: nat, t: Id)
    requires Inv(c, s) && Running(After(c, s, ls), r)
    ensures OvertakenNow(After(c, s, ls), r, t) <==> OvertakenNow(s, r, t) || Overtook(c, s, ls, r, t)
    decreases |ls|
  {
    hide Inv, Next, OvertakenNow, InWindow, Archives;
    if ls != [] {
      NextKeepsInv(c, s, ls[0]);
      if Running(s, r) { StaysRunning(c, s, ls, r); }
      StepOvertakes(c, s, ls[0], r, t);
      OvertakenAlong(c, Next(c, s, ls[0]), ls[1..], r, t);
    }
  }

  /** An event write that is about to commit lands in an archived tenant exactly when the tenant was
      archived in the write's window: for a creation, after its guard has read the archived flag and
      before its key-share lock on the tenant was granted; for a status change, after its guard and
      before its commit. */
  lemma EventLandsInArchiveIff(c: Config, s: State, ls: seq<Label>, r: nat)
    requires Reachable(c, s) && r !in s.reqs
    requires var s' := After(c, s, ls);
             r in s'.reqs && s'.reqs[r].phase.Run? && WritesEvent(s'.reqs[r].phase.txn) && s'.reqs[r].phase.stage == CommitPoint
    ensures var s' := After(c, s, ls);
            var t := TenantOfEvent(s'.reqs[r].phase.txn, s'.db);
            ArchivedIn(s'.db, t) <==> Overtook(c, s, ls, r, t)
  {
    hide Reachable, Inv, After, Overtook, ArchivedIn;
    ReachableInv(c, s);
    OvertakenAlong(c, s, ls, r, TenantOfEvent(After(c, s, ls).reqs[r].phase.txn, After(c, s, ls).db));
  }
}

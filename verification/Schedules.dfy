/** Whole schedules: the invariant holds in every reachable state, and every schedule has the
    outcome of its transactions run one at a time. */
module Schedules {
  import opened Domain
  import opened Subdomains
  import opened TenantContext
  import opened Tables
  import opened AtomicLaws
  import opened Machine
  import opened Invariant
  import opened Interference
  import opened Refinement

  // ---------------------------------------------------------------- gates establish the parameters

  lemma GateEstablishes(c: Config, clock: int, call: Call, ctx: Ctx, db: Db)
    requires DbOk(db)
    ensures var g := Gate(c, clock, call, ctx, db);
            (g.Begin? ==> ParamsOk(db, g.txn)) && (g.LoadTenantOf? ==> EventSeenOk(db, call, g.event, g.row)) &&
            (g.SweepFirst? ==> call.StartTenantRegistration?)
  {
    hide DbOk, ParseDisplayName, ValidName, ValidSubdomain, TrimSpace, Ensure, VerifyOwnership, SubjectOf, TenantOf,
         WritableTenant, WritableEvent, TenantByPublicId, EventByPublicId;
    if call.ClaimTenantOwnership? || call.AddTenantMember? || call.CreateTenantInvitation? {
      ParseDisplayNameRoundTrip(call.displayName);
    }
  }

  lemma GateEventEstablishes(call: Call, ctx: Ctx, e: Id, row: Event, db: Db)
    requires DbOk(db) && EventSeenOk(db, call, e, row)
    ensures var g := GateEventTenant(call, ctx, e, row, db);
            (g.Begin? ==> ParamsOk(db, g.txn)) && !g.LoadTenantOf? && !g.SweepFirst?
  {
    hide DbOk, Ensure, SubjectOf, TenantOf, WritableTenant;
    EventHome(db, e);
  }

  lemma FirstStageOk(c: Config, db: Db, x: Txn)
    ensures StageOk(c, db, x, FirstStage(x), Nothing, {}, [])
  {
  }

  // ---------------------------------------------------------------- changes of the tenants table alone

  /** A sweep or a registration changes no tenant that a request has locked, and adds no subdomain. */
  lemma TenantsOnlyStable(c: Config, db: Db, ts': map<Id, Tenant>, x: Txn, st: Stage, seen: Seen, held: set<Lock>,
      pending: seq<Write>)
    requires StageOk(c, db, x, st, seen, held, pending)
    requires forall t :: t in db.tenants && Lock(TenantRow(t), ForUpdate) in held ==> t in ts' && ts'[t] == db.tenants[t]
    requires forall t :: t in ts' && ts'[t].subdomain.Some? ==> t in db.tenants && db.tenants[t].subdomain == ts'[t].subdomain
    ensures StageOk(c, db.(tenants := ts'), x, st, seen, held, pending)
  {
  }

  lemma TenantsOnlyReqs(c: Config, s: State, id: nat, db': Db)
    requires ReqsOk(c, s) && Forward(s.db, db') && db' == s.db.(tenants := db'.tenants)
    requires forall r, t :: r in s.reqs && t in s.db.tenants && Lock(TenantRow(t), ForUpdate) in Held(s.reqs[r]) ==>
                            t in db'.tenants && db'.tenants[t] == s.db.tenants[t]
    requires forall t :: t in db'.tenants && db'.tenants[t].subdomain.Some? ==>
                         t in s.db.tenants && s.db.tenants[t].subdomain == db'.tenants[t].subdomain
    ensures forall r :: r in s.reqs && r != id ==> ReqOk(c, db', s.reqs[r])
  {
    hide StageOk, ParamsOk;
    forall r | r in s.reqs && r != id ensures ReqOk(c, db', s.reqs[r]) {
      var q := s.reqs[r];
      assert ReqOk(c, s.db, q);
      if q.phase.Run? {
        var Run(x, st, seen, held, pending) := q.phase;
        ParamsStable(s.db, db', x);
        TenantsOnlyStable(c, s.db, db'.tenants, x, st, seen, held, pending);
      }
    }
  }

  // ---------------------------------------------------------------- one request moves, the others stay

  /** A request that gives up locks or keeps them clashes with nobody new. */
  lemma LocksShrink(s: State, id: nat, p: Phase)
    requires LocksOk(s) && id in s.reqs && Held(s.reqs[id].(phase := p)) <= Held(s.reqs[id])
    ensures LocksOk(SetPhase(s, id, p))
  {
    var s' := SetPhase(s, id, p);
    forall a, b | a in s'.reqs && b in s'.reqs && a != b ensures Compatible(Held(s'.reqs[a]), Held(s'.reqs[b])) {
      assert Compatible(Held(s.reqs[a]), Held(s.reqs[b]));
    }
  }

  lemma LocksGrow(s: State, id: nat, x: Txn, st: Stage, seen: Seen, held: set<Lock>, pending: seq<Write>, l: Lock)
    requires LocksOk(s) && id in s.reqs && s.reqs[id].phase == Run(x, st, seen, held, pending) && Free(s, id, l)
    ensures LocksOk(SetPhase(s, id, Run(x, st, seen, held + {l}, pending)))
  {
    var s' := SetPhase(s, id, Run(x, st, seen, held + {l}, pending));
    forall a, b | a in s'.reqs && b in s'.reqs && a != b ensures Compatible(Held(s'.reqs[a]), Held(s'.reqs[b])) {
      assert Compatible(Held(s.reqs[a]), Held(s.reqs[b]));
      if a == id { assert forall h :: h in Held(s.reqs[b]) ==> !Clash(h, l); }
      if b == id { assert forall h :: h in Held(s.reqs[a]) ==> !Clash(h, l); }
    }
  }

  /** One request moves on while the committed state stays. */
  lemma MoveKeepsInv(c: Config, s: State, id: nat, p: Phase)
    requires Inv(c, s) && id in s.reqs && Held(s.reqs[id].(phase := p)) <= Held(s.reqs[id])
    requires ReqOk(c, s.db, s.reqs[id].(phase := p))
    ensures Inv(c, SetPhase(s, id, p))
  {
    hide DbOk, ReqOk;
    LocksShrink(s, id, p);
  }

  /** A request finishes, and with it the committed state changes. */
  lemma FinishKeepsInv(c: Config, s: State, id: nat, p: Phase, db': Db)
    requires Inv(c, s) && id in s.reqs && Held(s.reqs[id].(phase := p)) == {} && DbOk(db')
    requires ReqOk(c, db', s.reqs[id].(phase := p))
    requires forall r :: r in s.reqs && r != id ==> ReqOk(c, db', s.reqs[r])
    ensures Inv(c, SetPhase(s, id, p).(db := db'))
  {
    hide DbOk, ReqOk;
    LocksShrink(s, id, p);
  }

  lemma CommitKeepsInv(c: Config, s: State, id: nat, x: Txn, seen: Seen, held: set<Lock>, pending: seq<Write>)
    requires Inv(c, s) && id in s.reqs && s.reqs[id].phase == Run(x, CommitPoint, seen, held, pending)
    ensures var db' := ApplyAll(pending, s.db);
            Inv(c, SetPhase(s, id, AfterCommit(x)).(db := db')) && Forward(s.db, db')
  {
    hide DbOk, StageOk, ParamsOk, Covered, Exec, Forward, ObsAt, Agree;
    var db' := ApplyAll(pending, s.db);
    assert ReqOk(c, s.db, s.reqs[id]);
    CommitIsAtomic(c, s.db, x, seen, held, pending, s.clock);
    ExecKeeps(x, ObsAt(x, CommitPoint, seen, s.db, s.clock), s.db);
    CommitCovered(c, s.db, x, seen, held, pending);
    forall r | r in s.reqs && r != id ensures ReqOk(c, db', s.reqs[r]) {
      OtherReqStable(c, s, id, held, r, db');
    }
    FinishKeepsInv(c, s, id, AfterCommit(x), db');
  }

  lemma OtherReqStable(c: Config, s: State, id: nat, theirs: set<Lock>, r: nat, db': Db)
    requires Inv(c, s) && id in s.reqs && Held(s.reqs[id]) == theirs && r in s.reqs && r != id
    requires Covered(c, s.db, db', theirs) && Forward(s.db, db')
    ensures ReqOk(c, db', s.reqs[r])
  {
    hide DbOk, StageOk, ParamsOk, Covered;
    var q := s.reqs[r];
    assert ReqOk(c, s.db, q);
    assert Compatible(theirs, Held(q));
    if q.phase.Run? {
      var Run(x, st, seen, held, pending) := q.phase;
      StageStable(c, s.db, db', theirs, x, st, seen, held, pending);
    }
  }

  lemma SweepKeepsInv(c: Config, s: State, id: nat, now: int)
    requires Inv(c, s) && id in s.reqs && SweepFree(s, now) && s.reqs[id].call.StartTenantRegistration?
    ensures Inv(c, SetPhase(s, id, Swept(now)).(db := Sweep(s.db, now))) && Forward(s.db, Sweep(s.db, now))
  {
    hide DbOk, StageOk, ParamsOk, Forward, Agree;
    var db' := Sweep(s.db, now);
    SweepExact(s.db, now);
    forall r, t | r in s.reqs && t in s.db.tenants && Lock(TenantRow(t), ForUpdate) in Held(s.reqs[r])
      ensures t in db'.tenants && db'.tenants[t] == s.db.tenants[t]
    {
      assert Lock(TenantRow(t), ForUpdate).target.TenantRow?;
    }
    TenantsOnlyReqs(c, s, id, db');
    FinishKeepsInv(c, s, id, Swept(now), db');
  }

  lemma RegisterKeepsInv(c: Config, s: State, id: nat, newId: Id, row: Tenant)
    requires Inv(c, s) && id in s.reqs && PendingRow(row) && ExecRegister(s.db, newId, row).Committed?
    ensures Inv(c, SetPhase(s, id, Done(Success)).(db := ExecRegister(s.db, newId, row).db))
    ensures Forward(s.db, ExecRegister(s.db, newId, row).db)
  {
    hide DbOk, StageOk, ParamsOk, Forward, Agree;
    var db' := ExecRegister(s.db, newId, row).db;
    RegisterKeeps(s.db, newId, row);
    TenantsOnlyReqs(c, s, id, db');
    FinishKeepsInv(c, s, id, Done(Success), db');
  }

  lemma RunKeepsInv(c: Config, s: State, id: nat)
    requires Inv(c, s) && id in s.reqs && s.reqs[id].phase.Run?
    ensures Inv(c, ActRun(c, s, id)) && Forward(s.db, ActRun(c, s, id).db)
  {
    hide DbOk, StageOk, ParamsOk, Execute, Wants;
    var Run(x, st, seen, held, pending) := s.reqs[id].phase;
    assert ReqOk(c, s.db, s.reqs[id]);
    if Wants(c, x, st, seen, held, s.db) == {} {
      if st == CommitPoint {
        CommitKeepsInv(c, s, id, x, seen, held, pending);
      } else {
        match Execute(x, st, seen, s.db, s.clock) {
          case Fail(e) => MoveKeepsInv(c, s, id, Done(Failure(e)));
          case Go(st', seen', ws) =>
            ExecuteKeepsStage(c, s.db, x, st, seen, held, pending, s.clock);
            MoveKeepsInv(c, s, id, Run(x, st', seen', held, pending + ws));
        }
      }
    }
  }

  lemma EnterKeepsInv(c: Config, s: State, id: nat, g: Gated)
    requires Inv(c, s) && id in s.reqs && (s.reqs[id].phase.Start? || s.reqs[id].phase.EventSeen?)
    requires g.Begin? ==> ParamsOk(s.db, g.txn)
    requires g.LoadTenantOf? ==> EventSeenOk(s.db, s.reqs[id].call, g.event, g.row)
    requires g.SweepFirst? ==> s.reqs[id].call.StartTenantRegistration?
    ensures Inv(c, Enter(s, id, g)) && Enter(s, id, g).db == s.db
  {
    hide DbOk, StageOk, ParamsOk, EventSeenOk;
    match g
    case Refuse(e) => MoveKeepsInv(c, s, id, Done(Failure(e)));
    case LoadTenantOf(e, row) => MoveKeepsInv(c, s, id, EventSeen(e, row));
    case SweepFirst => MoveKeepsInv(c, s, id, Sweeping(s.clock));
    case Begin(x) =>
      FirstStageOk(c, s.db, x);
      MoveKeepsInv(c, s, id, Run(x, FirstStage(x), Nothing, {}, []));
  }

  lemma ActKeepsInv(c: Config, s: State, id: nat)
    requires Inv(c, s) && id in s.reqs
    ensures Inv(c, ActStep(c, s, id)) && Forward(s.db, ActStep(c, s, id).db)
  {
    hide DbOk, ParamsOk, Gate, GateEventTenant, StageOk, EventSeenOk;
    var q := s.reqs[id];
    assert ReqOk(c, s.db, q);
    match q.phase
    case Start =>
      var g := Gate(c, s.clock, q.call, q.ctx, s.db);
      GateEstablishes(c, s.clock, q.call, q.ctx, s.db);
      EnterKeepsInv(c, s, id, g);
    case EventSeen(e, row) =>
      var g := GateEventTenant(q.call, q.ctx, e, row, s.db);
      GateEventEstablishes(q.call, q.ctx, e, row, s.db);
      EnterKeepsInv(c, s, id, g);
    case Sweeping(now) => if SweepFree(s, now) { SweepKeepsInv(c, s, id, now); }
    case ReadBack(k) => MoveKeepsInv(c, s, id, Done(ReadBackReply(k, s.db)));
    case Swept(now) =>
      if q.call.StartTenantRegistration? {
        var row := NewTenantRow(c, q.call, now);
        match ExecRegister(s.db, q.call.newId, row) {
          case Refused(e) => MoveKeepsInv(c, s, id, Done(Failure(e)));
          case Committed(_) => RegisterKeepsInv(c, s, id, q.call.newId, row);
        }
      }
    case Run(_, _, _, _, _) => RunKeepsInv(c, s, id);
    case Done(_) =>
  }

  lemma TakeKeepsInv(c: Config, s: State, id: nat, l: Lock)
    requires Inv(c, s)
    ensures Inv(c, Next(c, s, Take(id, l))) && Next(c, s, Take(id, l)).db == s.db
  {
    hide DbOk, StageOk, ParamsOk, Wants;
    if id in s.reqs && s.reqs[id].phase.Run? {
      var Run(x, st, seen, held, pending) := s.reqs[id].phase;
      if l in Wants(c, x, st, seen, held, s.db) && Free(s, id, l) {
        assert ReqOk(c, s.db, s.reqs[id]);
        LocksGrow(s, id, x, st, seen, held, pending, l);
        TakeKeepsStage(c, s.db, x, st, seen, held, pending, l);
      }
    }
  }

  /** Every step keeps the invariant, and committed rows only move forward. */
  lemma NextKeepsInv(c: Config, s: State, l: Label)
    requires Inv(c, s)
    ensures Inv(c, Next(c, s, l)) && Forward(s.db, Next(c, s, l).db)
  {
    hide DbOk, StageOk, ParamsOk, ActStep;
    match l
    case Arrive(_, _, _) =>
    case Tick(_) =>
    case Take(id, lock) => TakeKeepsInv(c, s, id, lock);
    case Act(id) => if id in s.reqs { ActKeepsInv(c, s, id); }
    case Abort(id) => if id in s.reqs && !s.reqs[id].phase.Done? { MoveKeepsInv(c, s, id, Done(Failure(TransactionAborted))); }
  }

  lemma InitInv(c: Config, clock: int)
    ensures Inv(c, Init(clock))
  {
  }

  /** In every state of every schedule the invariant holds. */
  lemma {:induction false} ScheduleKeepsInv(c: Config, s: State, ls: seq<Label>)
    requires Inv(c, s)
    ensures Inv(c, After(c, s, ls)) && Forward(s.db, After(c, s, ls).db)
    decreases |ls|
  {
    hide Inv, Next, Forward;
    if ls == [] {
      ForwardRefl(s.db);
    } else {
      var s1 := Next(c, s, ls[0]);
      NextKeepsInv(c, s, ls[0]);
      ScheduleKeepsInv(c, s1, ls[1..]);
      ForwardTrans(s.db, s1.db, After(c, s1, ls[1..]).db);
    }
  }

  lemma ForwardRefl(db: Db)
    ensures Forward(db, db)
  {
  }

  // ---------------------------------------------------------------- the one-at-a-time order

  /** A transaction run alone, with the reply its request was given. */
  datatype Atomic =
    | AtomicTxn(request: nat, txn: Txn, obs: Obs, reply: Reply)
    | AtomicSweep(request: nat, now: int)
    | AtomicRegister(request: nat, id: Id, row: Tenant, reply: Reply)
    | AtomicReadBack(request: nat, key: MemberKey, reply: Reply)

  ghost function OutcomeOf(a: Atomic, db: Db): Outcome {
    match a
    case AtomicTxn(_, x, o, _) => Exec(x, o, db)
    case AtomicSweep(_, now) => Committed(Sweep(db, now))
    case AtomicRegister(_, id, row, _) => ExecRegister(db, id, row)
    case AtomicReadBack(_, k, _) => if k in db.members then Committed(db) else Refused(MembershipNotFound)
  }

  ghost function RunAlone(a: Atomic, db: Db): Db {
    if OutcomeOf(a, db).Committed? then OutcomeOf(a, db).db else db
  }

  /** The reply the request got is the one that running it alone gives. */
  ghost predicate SameReply(a: Atomic, db: Db) {
    match a
    case AtomicSweep(_, _) => true
    case _ => a.reply == match OutcomeOf(a, db) case Committed(_) => Success case Refused(e) => Failure(e)
  }

  /** The transaction that a step completes, if it completes one. */
  ghost function PointRun(c: Config, s: State, id: nat): seq<Atomic>
    requires id in s.reqs && s.reqs[id].phase.Run?
  {
    var Run(x, st, seen, held, pending) := s.reqs[id].phase;
    var o := ObsAt(x, st, seen, s.db, s.clock);
    if Wants(c, x, st, seen, held, s.db) != {} then []
    else if st == CommitPoint then [AtomicTxn(id, x, o, Success)]
    else match Execute(x, st, seen, s.db, s.clock)
         case Fail(e) => [AtomicTxn(id, x, o, Failure(e))]
         case Go(_, _, _) => []
  }

  ghost function Point(c: Config, s: State, l: Label): seq<Atomic> {
    if !(l.Act? && l.request in s.reqs) then []
    else
      var id, q := l.request, s.reqs[l.request];
      match q.phase
      case Start => []
      case EventSeen(_, _) => []
      case Sweeping(now) => if SweepFree(s, now) then [AtomicSweep(id, now)] else []
      case ReadBack(k) => [AtomicReadBack(id, k, ReadBackReply(k, s.db))]
      case Swept(now) =>
        if q.call.StartTenantRegistration? then
          var row := NewTenantRow(c, q.call, now);
          [AtomicRegister(id, q.call.newId, row,
                          if ExecRegister(s.db, q.call.newId, row).Committed? then Success
                          else Failure(ExecRegister(s.db, q.call.newId, row).error))]
        else []
      case Run(_, _, _, _, _) => PointRun(c, s, id)
      case Done(_) => []
  }

  ghost function Points(c: Config, s: State, ls: seq<Label>): seq<Atomic>
    decreases |ls|
  {
    if ls == [] then [] else Point(c, s, ls[0]) + Points(c, Next(c, s, ls[0]), ls[1..])
  }

  ghost function RunAll(ps: seq<Atomic>, db: Db): Db
    decreases |ps|
  {
    if ps == [] then db else RunAll(ps[1..], RunAlone(ps[0], db))
  }

  ghost predicate SameReplies(ps: seq<Atomic>, db: Db)
    decreases |ps|
  {
    ps == [] || (SameReply(ps[0], db) && SameReplies(ps[1..], RunAlone(ps[0], db)))
  }

  lemma RunStepAtomic(c: Config, s: State, id: nat)
    requires Inv(c, s) && id in s.reqs && s.reqs[id].phase.Run?
    ensures ActRun(c, s, id).db == RunAll(PointRun(c, s, id), s.db) && SameReplies(PointRun(c, s, id), s.db)
  {
    hide DbOk, StageOk, ParamsOk, Execute, Wants, Exec, ObsAt;
    var Run(x, st, seen, held, pending) := s.reqs[id].phase;
    assert ReqOk(c, s.db, s.reqs[id]);
    if Wants(c, x, st, seen, held, s.db) == {} {
      if st == CommitPoint {
        CommitIsAtomic(c, s.db, x, seen, held, pending, s.clock);
        OneAtomic(AtomicTxn(id, x, ObsAt(x, st, seen, s.db, s.clock), Success), s.db);
      } else if Execute(x, st, seen, s.db, s.clock).Fail? {
        RefusalIsAtomic(c, s.db, x, st, seen, held, pending, s.clock);
        OneAtomic(AtomicTxn(id, x, ObsAt(x, st, seen, s.db, s.clock), Failure(Execute(x, st, seen, s.db, s.clock).error)), s.db);
      }
    }
  }

  lemma OneAtomic(a: Atomic, db: Db)
    ensures RunAll([a], db) == RunAlone(a, db) && (SameReplies([a], db) <==> SameReply(a, db))
  {
    assert [a][1..] == [];
  }

  /** A step changes the committed state exactly as the transaction it completes would alone. */
  lemma StepAtomic(c: Config, s: State, l: Label)
    requires Inv(c, s)
    ensures Next(c, s, l).db == RunAll(Point(c, s, l), s.db) && SameReplies(Point(c, s, l), s.db)
  {
    hide DbOk, ReqsOk, LocksOk, Gate, GateEventTenant, Wants, ActRun, PointRun, Exec, Sweep, ExecRegister,
         NewTenantRow;
    if l.Act? && l.request in s.reqs {
      var id, q := l.request, s.reqs[l.request];
      if q.phase.Run? { RunStepAtomic(c, s, id); }
      else if Point(c, s, l) != [] { OneAtomic(Point(c, s, l)[0], s.db); }
    }
  }

  lemma {:induction false} RunAllConcat(ps: seq<Atomic>, qs: seq<Atomic>, db: Db)
    ensures RunAll(ps + qs, db) == RunAll(qs, RunAll(ps, db))
    ensures SameReplies(ps, db) && SameReplies(qs, RunAll(ps, db)) ==> SameReplies(ps + qs, db)
    decreases |ps|
  {
    hide RunAlone, SameReply;
    if ps == [] {
      assert ps + qs == qs;
    } else {
      assert (ps + qs)[0] == ps[0] && (ps + qs)[1..] == ps[1..] + qs;
      RunAllConcat(ps[1..], qs, RunAlone(ps[0], db));
    }
  }

  /** In commit order, every schedule, of any number of requests with any interleaving of their
      statements, commits the state that its transactions and single statements commit one at a time,
      and each is answered as it is there. What an event write read of the archived flag is an
      observation here, made when its guard ran. */
  lemma {:induction false} CommitOrder(c: Config, s: State, ls: seq<Label>)
    requires Inv(c, s)
    ensures After(c, s, ls).db == RunAll(Points(c, s, ls), s.db)
    ensures SameReplies(Points(c, s, ls), s.db)
    decreases |ls|
  {
    hide Inv, Next, RunAlone, SameReply, Point;
    if ls != [] {
      var s1 := Next(c, s, ls[0]);
      NextKeepsInv(c, s, ls[0]);
      StepAtomic(c, s, ls[0]);
      CommitOrder(c, s1, ls[1..]);
      RunAllConcat(Point(c, s, ls[0]), Points(c, s1, ls[1..]), s.db);
    }
  }

  // ---------------------------------------------------------------- schedules piece by piece

  lemma AfterNothing(c: Config, s: State)
    ensures After(c, s, []) == s
  {
  }

  lemma AfterOne(c: Config, s: State, l: Label)
    ensures After(c, s, [l]) == Next(c, s, l)
  {
    hide Next;
    assert [l][1..] == [];
  }

  lemma AfterStep(c: Config, s: State, l: Label, ls: seq<Label>)
    ensures After(c, s, [l] + ls) == After(c, Next(c, s, l), ls)
  {
    hide Next;
    assert ([l] + ls)[0] == l && ([l] + ls)[1..] == ls;
  }

  lemma {:induction false} AfterConcat(c: Config, s: State, a: seq<Label>, b: seq<Label>)
    ensures After(c, s, a + b) == After(c, After(c, s, a), b)
    ensures Points(c, s, a + b) == Points(c, s, a) + Points(c, After(c, s, a), b)
    decreases |a|
  {
    hide Next, Point;
    if a == [] {
      assert a + b == b;
    } else {
      assert (a + b)[0] == a[0] && (a + b)[1..] == a[1..] + b;
      AfterConcat(c, Next(c, s, a[0]), a[1..], b);
    }
  }

  /** The last step of a schedule, apart. */
  lemma AfterLast(c: Config, s: State, ls: seq<Label>)
    requires ls != []
    ensures var n := |ls| - 1; var before := After(c, s, ls[..n]);
            After(c, s, ls) == Next(c, before, ls[n]) && Points(c, s, ls) == Points(c, s, ls[..n]) + Point(c, before, ls[n])
  {
    hide Next, Point;
    var n := |ls| - 1;
    assert ls == ls[..n] + [ls[n]];
    AfterConcat(c, s, ls[..n], [ls[n]]);
    assert [ls[n]][1..] == [];
  }

  /** A label moves only its own request. */
  lemma OthersUnmoved(c: Config, s: State, l: Label, r: nat)
    requires r in s.reqs && (l.Tick? || l.request != r)
    ensures r in Next(c, s, l).reqs && Next(c, s, l).reqs[r] == s.reqs[r]
  {
    hide Gate, GateEventTenant, Execute, Wants, ExecRegister, Sweep, SweepFree, NewTenantRow;
  }

  lemma NewRequests(c: Config, s: State, l: Label, r: nat)
    requires r in Next(c, s, l).reqs && r !in s.reqs
    ensures Next(c, s, l).reqs[r].phase.Start?
  {
    hide Gate, GateEventTenant, Execute, Wants, ExecRegister, Sweep, SweepFree, NewTenantRow;
  }

  // ---------------------------------------------------------------- each request takes effect once

  predicate IsCommitOf(r: nat, a: Atomic) { (a.AtomicTxn? || a.AtomicRegister?) && a.request == r && a.reply == Success }

  /** How many transactions of request r commit. */
  function CommitCount(r: nat, ps: seq<Atomic>): nat {
    if ps == [] then 0 else (if IsCommitOf(r, ps[0]) then 1 else 0) + CommitCount(r, ps[1..])
  }

  lemma {:induction false} CommitCountConcat(r: nat, ps: seq<Atomic>, qs: seq<Atomic>)
    ensures CommitCount(r, ps + qs) == CommitCount(r, ps) + CommitCount(r, qs)
  {
    if ps == [] {
      assert ps + qs == qs;
    } else {
      assert (ps + qs)[0] == ps[0] && (ps + qs)[1..] == ps[1..] + qs;
      CommitCountConcat(r, ps[1..], qs);
    }
  }

  predicate Finished(s: State, r: nat) { r in s.reqs && s.reqs[r].phase.Done? }
  predicate Failed(s: State, r: nat) { Finished(s, r) && s.reqs[r].phase.reply.Failure? }

  /** The step by which r, whose insert is committed, ends in failure: its read-back finds nothing, or it
      is aborted there. */
  predicate FailsReadingBack(s: State, s': State, r: nat) { r in s.reqs && s.reqs[r].phase.ReadBack? && Failed(s', r) }

  ghost predicate FailedReadingBack(c: Config, s: State, ls: seq<Label>, r: nat)
    decreases |ls|
  {
    ls != [] && (FailsReadingBack(s, Next(c, s, ls[0]), r) || FailedReadingBack(c, Next(c, s, ls[0]), ls[1..], r))
  }

  /** Whether the transaction of r has been committed, given whether r failed reading back. */
  predicate TookEffect(s: State, r: nat, failedReading: bool) {
    r in s.reqs && (s.reqs[r].phase.ReadBack? || s.reqs[r].phase == Done(Success) || (Failed(s, r) && failedReading))
  }

  function Bit(b: bool): int { if b then 1 else 0 }

  lemma StepCommitCount(c: Config, s: State, l: Label, r: nat)
    ensures var s' := Next(c, s, l);
            if Finished(s, r) then CommitCount(r, Point(c, s, l)) == 0 && r in s'.reqs && s'.reqs[r] == s.reqs[r]
            else CommitCount(r, Point(c, s, l)) == Bit(TookEffect(s', r, FailsReadingBack(s, s', r))) - Bit(TookEffect(s, r, false))
  {
    hide Gate, GateEventTenant, Wants, Execute, Sweep, ExecRegister, NewTenantRow, SweepFree, ObsAt;
    if Point(c, s, l) != [] {
      assert Point(c, s, l)[1..] == [];
    }
  }

  lemma {:induction false} FinishedStays(c: Config, s: State, ls: seq<Label>, r: nat)
    requires Finished(s, r)
    ensures r in After(c, s, ls).reqs && After(c, s, ls).reqs[r] == s.reqs[r]
    ensures CommitCount(r, Points(c, s, ls)) == 0 && !FailedReadingBack(c, s, ls, r)
    decreases |ls|
  {
    hide Next, Point;
    if ls != [] {
      StepCommitCount(c, s, ls[0], r);
      FinishedStays(c, Next(c, s, ls[0]), ls[1..], r);
      CommitCountConcat(r, Point(c, s, ls[0]), Points(c, Next(c, s, ls[0]), ls[1..]));
    }
  }

  /** Every request commits at most one transaction. One that succeeds has committed exactly one; one
      that fails has committed none, except a member insert that failed in its read-back, which has
      committed exactly one: a failed request took effect exactly when it failed there. */
  lemma {:induction false} EffectOnce(c: Config, s: State, ls: seq<Label>, r: nat)
    requires !Finished(s, r)
    ensures CommitCount(r, Points(c, s, ls)) ==
              Bit(TookEffect(After(c, s, ls), r, FailedReadingBack(c, s, ls, r))) - Bit(TookEffect(s, r, false))
    decreases |ls|
  {
    hide Next, Point;
    if ls != [] {
      var s1 := Next(c, s, ls[0]);
      StepCommitCount(c, s, ls[0], r);
      CommitCountConcat(r, Point(c, s, ls[0]), Points(c, s1, ls[1..]));
      if Finished(s1, r) {
        FinishedStays(c, s1, ls[1..], r);
      } else {
        EffectOnce(c, s1, ls[1..], r);
      }
    }
  }

  /** Whatever request r runs leaves every table as it is, except the sweep of a registration. */
  ghost predicate LeavesTables(r: nat, ps: seq<Atomic>, db: Db)
    decreases |ps|
  {
    ps == [] || ((ps[0].request == r && !ps[0].AtomicSweep? ==> RunAlone(ps[0], db) == db) && LeavesTables(r, ps[1..], RunAlone(ps[0], db)))
  }

  lemma {:induction false} NoCommitNoEffect(r: nat, ps: seq<Atomic>, db: Db)
    requires SameReplies(ps, db) && CommitCount(r, ps) == 0
    ensures LeavesTables(r, ps, db)
    decreases |ps|
  {
    hide Exec, ExecRegister, Sweep;
    if ps != [] { NoCommitNoEffect(r, ps[1..], RunAlone(ps[0], db)); }
  }

  /** A request that has not taken effect has changed no table: neither a refused, nor an aborted, nor
      an unfinished one. The one exception is the sweep, a statement of its own that a registration
      issues first and that stays whatever becomes of the registration. */
  lemma RequestsWithoutEffect(c: Config, s: State, ls: seq<Label>, r: nat)
    requires Inv(c, s) && r !in s.reqs && !TookEffect(After(c, s, ls), r, FailedReadingBack(c, s, ls, r))
    ensures LeavesTables(r, Points(c, s, ls), s.db)
  {
    hide Inv, After, Points, LeavesTables, SameReplies;
    CommitOrder(c, s, ls);
    EffectOnce(c, s, ls, r);
    NoCommitNoEffect(r, Points(c, s, ls), s.db);
  }

  /** Only registrations sweep. */
  lemma SweepsAreRegistrations(c: Config, s: State, l: Label)
    requires Inv(c, s) && Point(c, s, l) != [] && Point(c, s, l)[0].AtomicSweep?
    ensures var a := Point(c, s, l)[0]; a.request in s.reqs && s.reqs[a.request].call.StartTenantRegistration?
  {
    hide DbOk, LocksOk, ParamsOk, StageOk, Gate, GateEventTenant, Wants, Execute, ExecRegister, ObsAt;
    assert ReqOk(c, s.db, s.reqs[l.request]);
  }
}

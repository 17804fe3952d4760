/** A request that nobody holds up completes, with the reply and the tables of its one-at-a-time
    meaning: the concurrent service, run by one request, is the imperative one. */
module SoloRuns {
  import opened Domain
  import opened Subdomains
  import opened TenantContext
  import opened Tables
  import opened AtomicLaws
  import opened Machine
  import opened Invariant
  import opened Refinement
  import opened Schedules
  import opened Histories
  import opened Service

  // ---------------------------------------------------------------- the locks of a statement are granted

  function MutateNeeds(x: Txn, db: Db): set<Lock> {
    match x
    case ChangeRole(t, _, u, _) => {Lock(MemberRow(MemberKey(t, u)), NoKeyUpdate)}
    case RevokeMember(t, _, u) =>
      {Lock(MemberRow(MemberKey(t, u)), ForUpdate), Lock(MemberSlot(MemberKey(t, u)), ForUpdate)} + CascadeLocks(MemberKey(t, u), db)
    case GrantRole(t, _, e, u, _) =>
      {Lock(RoleSlot(RoleKey(e, u)), ForUpdate), Lock(EventRow(e), KeyShare), Lock(MemberRow(MemberKey(t, u)), KeyShare)}
    case RevokeEventRole(_, _, e, u) => {Lock(RoleSlot(RoleKey(e, u)), ForUpdate)}
    case Invite(_, _, id, row) =>
      {Lock(InvitationSlot(id), ForUpdate), Lock(InvitationPublicSlot(row.publicId), ForUpdate), Lock(TokenSlot(row.tokenHash), ForUpdate),
       Lock(TenantRow(row.tenantId), KeyShare)}
    case AddMember(t, u, _, _) => {Lock(MemberSlot(MemberKey(t, u)), ForUpdate), Lock(TenantRow(t), KeyShare)}
    case SetStatus(e, _, _) => {Lock(EventRow(e), NoKeyUpdate)}
    case _ => {}
  }

  /** Every lock that a statement may ask for. */
  ghost function Needs(c: Config, x: Txn, st: Stage, seen: Seen, db: Db): set<Lock> {
    match st
    case TakeAdvisory => if Serialized(x) then {Lock(AdvisoryKey(c.hashText(x.tenant)), ForUpdate)} else {}
    case Authorize => if CallerKey(x, seen).Some? then {Lock(MemberRow(CallerKey(x, seen).value), Share)} else {}
    case KeepTarget => if ChecksLastOwner(x) then {Lock(MemberRow(MemberKey(x.tenant, x.user)), Share)} else {}
    case Mutate => MutateNeeds(x, db)
    case FindInvite => if FoundInvite(x, db).Some? then {Lock(InvitationRow(FoundInvite(x, db).value), ForUpdate)} else {}
    case LockTenant =>
      if TenantByPublicId(db, PublicIdOf(x)).Some? then {Lock(TenantRow(TenantByPublicId(db, PublicIdOf(x)).value), ForUpdate)} else {}
    case InsertMember => {Lock(MemberSlot(NewMemberKey(x, seen)), ForUpdate), Lock(TenantRow(NewMemberKey(x, seen).tenant), KeyShare)}
    case MarkOwned => if x.ClaimTenant? then {Lock(SubdomainSlot(x.subdomain), ForUpdate)} else {}
    case InsertEvent =>
      if x.NewEvent? then
        {Lock(EventSlot(x.id), ForUpdate), Lock(EventPublicSlot(x.draft.publicId), ForUpdate), Lock(TenantRow(x.tenant), KeyShare)}
      else {}
    case GrantCreator =>
      if x.NewEvent? then
        {Lock(RoleSlot(RoleKey(x.id, x.subject)), ForUpdate), Lock(MemberRow(MemberKey(x.tenant, x.subject)), KeyShare)}
      else {}
    case _ => {}
  }

  lemma MutateWantsAreNeeds(x: Txn, held: set<Lock>, db: Db)
    ensures MutateWants(x, held, db) <= MutateNeeds(x, db) - held
  {
  }

  lemma WantsAreNeeds(c: Config, x: Txn, st: Stage, seen: Seen, held: set<Lock>, db: Db)
    ensures Wants(c, x, st, seen, held, db) <= Needs(c, x, st, seen, db) - held
  {
    hide MutateWants, MutateNeeds;
    MutateWantsAreNeeds(x, held, db);
  }

  /** Nobody but r holds a lock. */
  predicate LocksNobody(s: State, r: nat) { forall q :: q in s.reqs && q != r ==> Held(s.reqs[q]) == {} }

  /** Nobody but r holds a lock that a statement of x could have to wait for. */
  ghost predicate Unhindered(c: Config, s: State, r: nat, x: Txn) {
    forall q, h :: q in s.reqs && q != r && h in Held(s.reqs[q]) ==> ClashesWithNone(c, x, s.db, h)
  }

  ghost predicate ClashesWithNone(c: Config, x: Txn, db: Db, h: Lock) {
    forall st, seen, l :: l in Needs(c, x, st, seen, db) ==> !Clash(h, l)
  }

  lemma NeverHindered(c: Config, s: State, r: nat, x: Txn)
    requires LocksNobody(s, r)
    ensures Unhindered(c, s, r, x)
  {
    hide ClashesWithNone;
  }

  predicate RunningAs(s: State, r: nat, x: Txn, st: Stage, seen: Seen, held: set<Lock>, pending: seq<Write>) {
    r in s.reqs && s.reqs[r].phase == Run(x, st, seen, held, pending)
  }

  lemma TakeOne(c: Config, s: State, r: nat, x: Txn, st: Stage, seen: Seen, held: set<Lock>, pending: seq<Write>, l: Lock)
    requires RunningAs(s, r, x, st, seen, held, pending) && Unhindered(c, s, r, x) && l in Wants(c, x, st, seen, held, s.db)
    ensures Next(c, s, Take(r, l)) == SetPhase(s, r, Run(x, st, seen, held + {l}, pending))
  {
    hide Wants, ActStep, Needs;
    WantsAreNeeds(c, x, st, seen, held, s.db);
    forall q, h | q in s.reqs && q != r && h in Held(s.reqs[q]) ensures !Clash(h, l) {
      assert ClashesWithNone(c, x, s.db, h);
    }
  }

  /** An unhindered request is granted every lock its statement asks for. */
  lemma {:induction false} TakesItsLocks(c: Config, s: State, r: nat, x: Txn, st: Stage, seen: Seen, held: set<Lock>, pending: seq<Write>)
    returns (ls: seq<Label>, all: set<Lock>)
    requires RunningAs(s, r, x, st, seen, held, pending) && Unhindered(c, s, r, x)
    ensures After(c, s, ls) == SetPhase(s, r, Run(x, st, seen, all, pending))
    ensures Wants(c, x, st, seen, all, s.db) == {} && held <= all <= held + Needs(c, x, st, seen, s.db)
    decreases |Needs(c, x, st, seen, s.db) - held|
  {
    hide Wants, Needs, Next, After, ClashesWithNone;
    if l :| l in Wants(c, x, st, seen, held, s.db) {
      WantsAreNeeds(c, x, st, seen, held, s.db);
      var needs := Needs(c, x, st, seen, s.db);
      assert needs - held == (needs - (held + {l})) + {l};
      TakeOne(c, s, r, x, st, seen, held, pending, l);
      var s1 := SetPhase(s, r, Run(x, st, seen, held + {l}, pending));
      var rest;
      rest, all := TakesItsLocks(c, s1, r, x, st, seen, held + {l}, pending);
      ls := [Take(r, l)] + rest;
      AfterStep(c, s, Take(r, l), rest);
    } else {
      ls, all := [], held;
      AfterNothing(c, s);
    }
  }

  // ---------------------------------------------------------------- statement after statement

  /** The statements still to come. */
  function StageRank(st: Stage): nat {
    match st
    case TakeAdvisory => 10
    case LockTenant => 9
    case FindInvite => 8
    case Authorize => 7
    case KeepTarget => 6
    case CountOwners | GuardTenant | GuardStatus => 5
    case InsertEvent | InsertMember => 4
    case GrantCreator | CloseInvite | MarkOwned => 3
    case Mutate => 2
    case CommitPoint => 0
  }

  lemma StagesDescend(x: Txn, st: Stage, seen: Seen, db: Db, clock: int)
    requires Execute(x, st, seen, db, clock).Go?
    ensures StageRank(Execute(x, st, seen, db, clock).stage) < StageRank(st)
  {
    hide InvitationByToken, InvitationByPublicId, TenantByPublicId, Owners, Require;
  }

  /** What a request has read is of this moment; and open is what its guard has read, or will read. */
  predicate Fresh(x: Txn, st: Stage, seen: Seen, db: Db, clock: int, open: bool) {
    (seen.SawTenant? || seen.SawInvite? ==> seen.at == clock) && (if PastGuard(x, st) then open else open == ReadsOpen(x, db))
  }

  lemma StaysFresh(c: Config, db: Db, x: Txn, st: Stage, seen: Seen, held: set<Lock>, pending: seq<Write>, clock: int, open: bool)
    requires StageOk(c, db, x, st, seen, held, pending) && Fresh(x, st, seen, db, clock, open)
    requires st != CommitPoint && Execute(x, st, seen, db, clock).Go?
    ensures var e := Execute(x, st, seen, db, clock); Fresh(x, e.stage, e.seen, db, clock, open)
  {
    hide InvitationByToken, InvitationByPublicId, TenantByPublicId, Owners, Require, GuardedReady, MayWrite;
  }

  lemma CommitsAlone(c: Config, db: Db, x: Txn, seen: Seen, held: set<Lock>, pending: seq<Write>, clock: int, open: bool)
    requires DbOk(db) && ParamsOk(db, x) && StageOk(c, db, x, CommitPoint, seen, held, pending)
    requires Fresh(x, CommitPoint, seen, db, clock, open)
    ensures Exec(x, Obs(clock, open), db) == Committed(ApplyAll(pending, db))
  {
    hide DbOk, ParamsOk, StageOk, Exec;
    CommitIsAtomic(c, db, x, seen, held, pending, clock);
    assert ObsAt(x, CommitPoint, seen, db, clock) == Obs(clock, open);
  }

  lemma RefusedAlone(c: Config, db: Db, x: Txn, st: Stage, seen: Seen, held: set<Lock>, pending: seq<Write>, clock: int, open: bool)
    requires DbOk(db) && ParamsOk(db, x) && StageOk(c, db, x, st, seen, held, pending) && Fresh(x, st, seen, db, clock, open)
    requires st != CommitPoint && Execute(x, st, seen, db, clock).Fail?
    ensures Exec(x, Obs(clock, open), db) == Refused(Execute(x, st, seen, db, clock).error)
  {
    hide DbOk, ParamsOk, Exec, Execute, GuardedOk, AcceptOk, ClaimOk, AdminOk;
    RefusalIsAtomic(c, db, x, st, seen, held, pending, clock);
    if x.NewEvent? && st == Authorize {
      NotAMember(db, x, seen, clock);
    } else {
      assert ObsAt(x, st, seen, db, clock) == Obs(clock, open);
    }
  }

  lemma NotAMember(db: Db, x: Txn, seen: Seen, clock: int)
    requires x.NewEvent? && Execute(x, Authorize, seen, db, clock).Fail?
    ensures forall o :: Exec(x, o, db) == Refused(Execute(x, Authorize, seen, db, clock).error)
  {
  }

  lemma ActMoves(c: Config, s: State, r: nat, x: Txn, st: Stage, seen: Seen, held: set<Lock>, pending: seq<Write>)
    requires RunningAs(s, r, x, st, seen, held, pending) && Wants(c, x, st, seen, held, s.db) == {}
    ensures st == CommitPoint ==> Next(c, s, Act(r)) == SetPhase(s, r, AfterCommit(x)).(db := ApplyAll(pending, s.db))
    ensures var e := Execute(x, st, seen, s.db, s.clock);
            st != CommitPoint ==>
              Next(c, s, Act(r)) ==
              SetPhase(s, r, if e.Fail? then Done(Failure(e.error)) else Run(x, e.stage, e.seen, held, pending + e.writes))
  {
    hide Wants, Execute, ApplyAll;
  }

  /** Only request r has moved, and it is done. */
  ghost predicate EndsWith(s: State, s': State, r: nat, answer: Answer) {
    r in s.reqs && s' == SetPhase(s, r, Done(answer.reply)).(db := answer.db)
  }

  /** Where a transaction leaves its request. */
  function PhaseAfter(x: Txn, o: Outcome): Phase {
    match o
    case Committed(_) => AfterCommit(x)
    case Refused(e) => Done(Failure(e))
  }

  /** A running transaction that nobody hinders runs to its end, with the outcome it has alone. */
  lemma {:induction false} TransactionEnds(c: Config, s: State, r: nat, x: Txn, st: Stage, seen: Seen, held: set<Lock>,
    pending: seq<Write>, open: bool) returns (ls: seq<Label>)
    requires Inv(c, s) && RunningAs(s, r, x, st, seen, held, pending) && Unhindered(c, s, r, x)
    requires Fresh(x, st, seen, s.db, s.clock, open)
    ensures var o := Exec(x, Obs(s.clock, open), s.db);
            After(c, s, ls) == SetPhase(s, r, PhaseAfter(x, o)).(db := Finish(o, s.db).db)
    decreases StageRank(st)
  {
    hide DbOk, LocksOk, StageOk, ParamsOk, Wants, Next, After, Execute, Fresh, Exec, StageRank, ApplyAll, ClashesWithNone;
    var takes, all := TakesItsLocks(c, s, r, x, st, seen, held, pending);
    var s1 := SetPhase(s, r, Run(x, st, seen, all, pending));
    ScheduleKeepsInv(c, s, takes);
    assert ReqOk(c, s1.db, s1.reqs[r]);
    ActMoves(c, s1, r, x, st, seen, all, pending);
    var s2 := Next(c, s1, Act(r));
    if st == CommitPoint || Execute(x, st, seen, s.db, s.clock).Fail? {
      if st == CommitPoint { CommitsAlone(c, s.db, x, seen, all, pending, s.clock, open); }
      else { RefusedAlone(c, s.db, x, st, seen, all, pending, s.clock, open); }
      ls := takes + [Act(r)];
      AfterConcat(c, s, takes, [Act(r)]);
      AfterOne(c, s1, Act(r));
    } else {
      var e := Execute(x, st, seen, s.db, s.clock);
      StagesDescend(x, st, seen, s.db, s.clock);
      StaysFresh(c, s.db, x, st, seen, all, pending, s.clock, open);
      NextKeepsInv(c, s1, Act(r));
      var rest := TransactionEnds(c, s2, r, x, e.stage, e.seen, all, pending + e.writes, open);
      ls := takes + ([Act(r)] + rest);
      AfterConcat(c, s, takes, [Act(r)] + rest);
      AfterStep(c, s1, Act(r), rest);
    }
  }

  /** And its request with it: a member insert then finds the membership it has inserted. */
  lemma TransactionCompletes(c: Config, s: State, r: nat, x: Txn, st: Stage, seen: Seen, held: set<Lock>,
    pending: seq<Write>, open: bool) returns (ls: seq<Label>)
    requires Inv(c, s) && RunningAs(s, r, x, st, seen, held, pending) && Unhindered(c, s, r, x)
    requires Fresh(x, st, seen, s.db, s.clock, open)
    ensures EndsWith(s, After(c, s, ls), r, Finish(Exec(x, Obs(s.clock, open), s.db), s.db))
  {
    hide Inv, Next, After, Fresh, Unhindered, Exec;
    var o := Exec(x, Obs(s.clock, open), s.db);
    ls := TransactionEnds(c, s, r, x, st, seen, held, pending, open);
    if o.Committed? && x.AddMember? {
      var s1 := After(c, s, ls);
      AddedIsThere(x, Obs(s.clock, open), s.db);
      ReadBackStep(c, s1, r);
      AfterConcat(c, s, ls, [Act(r)]);
      AfterOne(c, s1, Act(r));
      ls := ls + [Act(r)];
    }
  }

  lemma AddedIsThere(x: Txn, o: Obs, db: Db)
    requires x.AddMember? && Exec(x, o, db).Committed?
    ensures MemberKey(x.tenant, x.user) in Exec(x, o, db).db.members
  {
  }

  lemma ReadBackStep(c: Config, s: State, r: nat)
    requires r in s.reqs && s.reqs[r].phase.ReadBack?
    ensures Next(c, s, Act(r)) == SetPhase(s, r, Done(ReadBackReply(s.reqs[r].phase.key, s.db)))
  {
  }

  // ---------------------------------------------------------------- the whole call

  lemma BeginIsFresh(x: Txn, db: Db, clock: int)
    ensures Fresh(x, FirstStage(x), Nothing, db, clock, ReadsOpen(x, db))
  {
  }

  /** The gate's step. */
  lemma GateStep(c: Config, s: State, r: nat)
    requires r in s.reqs && s.reqs[r].phase.Start?
    ensures var g := Gate(c, s.clock, s.reqs[r].call, s.reqs[r].ctx, s.db);
            Next(c, s, Act(r)) ==
            SetPhase(s, r, if g.Refuse? then Done(Failure(g.error))
                           else if g.LoadTenantOf? then EventSeen(g.event, g.row)
                           else if g.SweepFirst? then Sweeping(s.clock)
                           else Run(g.txn, FirstStage(g.txn), Nothing, {}, []))
  {
    hide Gate, Sweep, Expired;
  }

  lemma EventGateStep(c: Config, s: State, r: nat)
    requires r in s.reqs && s.reqs[r].phase.EventSeen?
    ensures var q := s.reqs[r];
            Next(c, s, Act(r)) == Enter(s, r, GateEventTenant(q.call, q.ctx, q.phase.event, q.phase.row, s.db))
  {
    hide GateEventTenant, Enter;
  }

  lemma SweepingStep(c: Config, s: State, r: nat)
    requires r in s.reqs && s.reqs[r].phase.Sweeping? && LocksNobody(s, r)
    ensures var now := s.reqs[r].phase.now; Next(c, s, Act(r)) == SetPhase(s, r, Swept(now)).(db := Sweep(s.db, now))
  {
    hide Sweep, Expired;
  }

  lemma RegisterStep(c: Config, s: State, r: nat)
    requires r in s.reqs && s.reqs[r].phase.Swept? && s.reqs[r].call.StartTenantRegistration?
    ensures var q := s.reqs[r];
            EndsWith(s, Next(c, s, Act(r)), r, Finish(ExecRegister(s.db, q.call.newId, NewTenantRow(c, q.call, q.phase.now)), s.db))
  {
    hide ExecRegister, NewTenantRow;
  }

  lemma SweepGate(c: Config, clock: int, call: Call, ctx: Ctx, db: Db)
    ensures Gate(c, clock, call, ctx, db).SweepFirst? ==> call.StartTenantRegistration?
    ensures forall e, row, p :: GateEventTenant(call, ctx, e, row, p).Refuse? || GateEventTenant(call, ctx, e, row, p).Begin?
  {
    hide ParseDisplayName, ValidSubdomain, TenantOf, SubjectOf, WritableTenant, WritableEvent, TenantByPublicId, EventByPublicId;
  }

  /** The request after its first step, to its end. */
  lemma GatedCompletes(c: Config, s: State, r: nat) returns (ls: seq<Label>)
    requires Inv(c, s) && r in s.reqs && s.reqs[r].phase.Start? && LocksNobody(s, r)
    ensures EndsWith(s, After(c, s, ls), r, Alone(c, s.clock, s.reqs[r].call, s.reqs[r].ctx, s.db))
  {
    hide Inv, Gate, GateEventTenant, Next, After, Sweep, ExecRegister, NewTenantRow, Exec, ReadsOpen, Fresh, Unhindered;
    var q := s.reqs[r];
    var s1 := Next(c, s, Act(r));
    GateStep(c, s, r);
    NextKeepsInv(c, s, Act(r));
    SweepGate(c, s.clock, q.call, q.ctx, s.db);
    match Gate(c, s.clock, q.call, q.ctx, s.db)
    case Refuse(e) =>
      ls := [Act(r)];
      AfterOne(c, s, Act(r));
    case SweepFirst =>
      var s2 := Next(c, s1, Act(r));
      SweepingStep(c, s1, r);
      RegisterStep(c, s2, r);
      ls := [Act(r)] + ([Act(r)] + [Act(r)]);
      AfterStep(c, s, Act(r), [Act(r)] + [Act(r)]);
      AfterStep(c, s1, Act(r), [Act(r)]);
      AfterOne(c, s2, Act(r));
    case Begin(x) =>
      BeginIsFresh(x, s.db, s.clock);
      NeverHindered(c, s1, r, x);
      var rest := TransactionCompletes(c, s1, r, x, FirstStage(x), Nothing, {}, [], ReadsOpen(x, s.db));
      ls := [Act(r)] + rest;
      AfterStep(c, s, Act(r), rest);
    case LoadTenantOf(e, row) =>
      var s2 := Next(c, s1, Act(r));
      EventGateStep(c, s1, r);
      NextKeepsInv(c, s1, Act(r));
      match GateEventTenant(q.call, q.ctx, e, row, s.db) {
        case Refuse(error) =>
          ls := [Act(r)] + [Act(r)];
          AfterStep(c, s, Act(r), [Act(r)]);
          AfterOne(c, s1, Act(r));
        case Begin(x) =>
          BeginIsFresh(x, s.db, s.clock);
          NeverHindered(c, s2, r, x);
          var rest := TransactionCompletes(c, s2, r, x, FirstStage(x), Nothing, {}, [], ReadsOpen(x, s.db));
          ls := [Act(r)] + ([Act(r)] + rest);
          AfterStep(c, s, Act(r), [Act(r)] + rest);
          AfterStep(c, s1, Act(r), rest);
      }
  }

  predicate Unlocked(s: State) { forall q :: q in s.reqs ==> Held(s.reqs[q]) == {} }

  /** Request r is done with its call and this answer, and nobody holds a lock. */
  predicate CompletesWith(s: State, r: nat, call: Call, ctx: Ctx, answer: Answer) {
    r in s.reqs && s.reqs[r] == Req(call, ctx, Done(answer.reply)) && s.db == answer.db && Unlocked(s)
  }

  /** In every reachable state in which nobody holds a lock, any call can arrive and complete, and
      its reply and the tables are those of the call run by itself. */
  lemma CallsComplete(c: Config, s: State, r: nat, call: Call, ctx: Ctx)
    requires Reachable(c, s) && r !in s.reqs && Unlocked(s)
    ensures exists ls: seq<Label> ::
              Extends(c, s, After(c, s, ls), r) && OthersStay(s, After(c, s, ls), r) &&
              CompletesWith(After(c, s, ls), r, call, ctx, Alone(c, s.clock, call, ctx, s.db))
  {
    hide Reachable, Inv, After, Alone;
    ReachableInv(c, s);
    var s1 := s.(reqs := s.reqs[r := Req(call, ctx, Start)]);
    ArriveStep(c, s, r, call, ctx);
    NextKeepsInv(c, s, Arrive(r, call, ctx));
    var rest := GatedCompletes(c, s1, r);
    AfterStep(c, s, Arrive(r, call, ctx), rest);
    var ls := [Arrive(r, call, ctx)] + rest;
    ReachesOn(c, s, ls);
    assert Extends(c, s, After(c, s, ls), r) && OthersStay(s, After(c, s, ls), r) &&
           CompletesWith(After(c, s, ls), r, call, ctx, Alone(c, s.clock, call, ctx, s.db));
  }

  /** Every other request is where it was. */
  predicate OthersStay(s: State, s': State, r: nat) { forall q :: q in s.reqs && q != r ==> q in s'.reqs && s'.reqs[q] == s.reqs[q] }

  /** A later reachable state at the same time, with request r added. */
  ghost predicate Extends(c: Config, s: State, s': State, r: nat) {
    Reachable(c, s') && s'.clock == s.clock && s'.reqs.Keys == s.reqs.Keys + {r}
  }

  /** The state in which it has completed. */
  lemma CallCompletes(c: Config, s: State, r: nat, call: Call, ctx: Ctx) returns (s': State)
    requires Reachable(c, s) && r !in s.reqs && Unlocked(s)
    ensures Extends(c, s, s', r) && OthersStay(s, s', r) && CompletesWith(s', r, call, ctx, Alone(c, s.clock, call, ctx, s.db))
  {
    hide Reachable, After, Alone;
    CallsComplete(c, s, r, call, ctx);
    var ls: seq<Label> :| Extends(c, s, After(c, s, ls), r) && OthersStay(s, After(c, s, ls), r) &&
                          CompletesWith(After(c, s, ls), r, call, ctx, Alone(c, s.clock, call, ctx, s.db));
    s' := After(c, s, ls);
  }

  lemma ArriveStep(c: Config, s: State, r: nat, call: Call, ctx: Ctx)
    requires r !in s.reqs
    ensures Next(c, s, Arrive(r, call, ctx)) == s.(reqs := s.reqs[r := Req(call, ctx, Start)])
  {
    hide ActStep;
  }
}

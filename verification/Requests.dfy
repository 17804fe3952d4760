/** Every request serves its own call: what it has read, carries and finally commits is told from the
    arguments the call came with, over every run. */
module RequestHistory {
  import opened Domain
  import opened Subdomains
  import opened TenantContext
  import opened Tables
  import opened AtomicLaws
  import opened Machine
  import opened Invariant
  import opened Interference
  import opened Refinement
  import opened Schedules
  import opened Histories
  import opened Service
  import opened CallContracts
  import opened ClaimHistory
  import opened InvitationHistory
  import opened SoloRuns
  import opened ArchiveRaces

  // ---------------------------------------------------------------- what a request carries

  /** An owned tenant stays, and keeps its public ID; so does an event. */
  predicate Names(db: Db, t: Id, p: Id) { OwnedTenant(db, t) && db.tenants[t].publicId == p }

  lemma NamesStay(db: Db, db': Db)
    requires Forward(db, db')
    ensures forall t, p :: Names(db, t, p) ==> Names(db', t, p)
    ensures forall e, p :: NamedEvent(db, e, p) ==> NamedEvent(db', e, p)
  {
  }

  /** The transaction that a call's gates hand on: made of the call's arguments, and of what its public IDs name. */
  ghost predicate Carries(c: Config, from: int, to: int, call: Call, ctx: Ctx, db: Db, x: Txn) {
    match call
    case StartTenantRegistration(_, _, _, _, _) => false
    case ClaimTenantOwnership(p, token, subdomain, displayName) =>
      SubjectOf(ctx).Some? && x == ClaimTenant(p, TenantOf(ctx), c.sha(token), subdomain, SubjectOf(ctx).value, TrimSpace(displayName))
    case ChangeTenantContract(p, plan) => x == ChangePlan(p, SubjectOf(ctx), plan)
    case ArchiveTenantCall(p) => x == ArchiveTenant(p, SubjectOf(ctx))
    case CreateEvent(p, name, id, newPublicId) =>
      SubjectOf(ctx).Some? && x.NewEvent? && Names(db, x.tenant, p) &&
      x == NewEvent(x.tenant, SubjectOf(ctx).value, id, Event(newPublicId, x.tenant, p, name, Draft))
    case TransitionEventStatus(p, status) => x.SetStatus? && NamedEvent(db, x.event, p) && x.status == status
    case AddTenantMember(p, u, role, displayName) =>
      x.AddMember? && Names(db, x.tenant, p) && x == AddMember(x.tenant, u, role, TrimSpace(displayName))
    case ChangeTenantRole(p, u, role) => x.ChangeRole? && Names(db, x.tenant, p) && x == ChangeRole(x.tenant, SubjectOf(ctx), u, role)
    case GrantEventRole(p, u, role) =>
      x.GrantRole? && NamedEvent(db, x.event, p) && x == GrantRole(x.tenant, SubjectOf(ctx), x.event, u, role)
    case RevokeRole(u, p, ep) =>
      if p != "" then x.RevokeMember? && Names(db, x.tenant, p) && x == RevokeMember(x.tenant, SubjectOf(ctx), u)
      else x.RevokeEventRole? && NamedEvent(db, x.event, ep) && x == RevokeEventRole(x.tenant, SubjectOf(ctx), x.event, u)
    case CreateTenantInvitation(p, role, displayName, id, newPublicId, token) =>
      x.Invite? && Names(db, x.tenant, p) && from <= x.row.expiresAt - c.invitationTtl <= to &&
      x == Invite(x.tenant, SubjectOf(ctx), id, Invitation(newPublicId, x.tenant, RoleStaff, TrimSpace(displayName), c.sha(token),
                                                           x.row.expiresAt, None, None))
    case RevokeTenantInvitation(p, invitation) => x.RevokeInvite? && Names(db, x.tenant, p) && x == RevokeInvite(x.tenant, invitation)
    case AcceptTenantInvitation(p, token) =>
      x.AcceptInvite? && SubjectOf(ctx) == Some(x.subject) && x.token == c.sha(token) && (x.seenOwned ==> Names(db, x.tenant, p)) &&
      (x.seenOwned && x.seenArchived ==> db.tenants[x.tenant].archived)
  }

  /** The times it has read lie between its arrival and now. */
  predicate ReadSince(from: int, to: int, seen: Seen) { seen.SawTenant? || seen.SawInvite? ==> from <= seen.at <= to }

  /** An event is loaded for two calls only. */
  predicate LoadsEvent(call: Call, p: Id) {
    (call.GrantEventRole? && p == call.event) || (call.RevokeRole? && call.tenant == "" && p == call.event)
  }

  ghost predicate ServesCall(c: Config, from: int, s: State, r: nat) {
    r in s.reqs ==>
      var q := s.reqs[r];
      match q.phase
      case Start => true
      case EventSeen(e, row) => LoadsEvent(q.call, row.publicId)
      case Sweeping(now) => from <= now <= s.clock
      case Swept(now) => from <= now <= s.clock
      case ReadBack(k) => q.call.AddTenantMember? && k.user == q.call.user && Names(s.db, k.tenant, q.call.tenant)
      case Run(x, _, seen, _, _) => Carries(c, from, s.clock, q.call, q.ctx, s.db, x) && ReadSince(from, s.clock, seen)
      case Done(_) => true
  }

  // ---------------------------------------------------------------- the gates hand it on

  lemma GateCarries(c: Config, from: int, clock: int, call: Call, ctx: Ctx, db: Db)
    requires from <= clock
    ensures var g := Gate(c, clock, call, ctx, db);
            (g.Begin? ==> Carries(c, from, clock, call, ctx, db, g.txn)) && (g.LoadTenantOf? ==> LoadsEvent(call, g.row.publicId))
  {
    hide SubjectOf, TenantOf, TrimSpace, ParseDisplayName, ValidSubdomain, Ensure, VerifyOwnership, TenantByPublicId,
         EventByPublicId;
    if call.ClaimTenantOwnership? || call.AddTenantMember? || call.CreateTenantInvitation? { NameGate(call.displayName); }
  }

  lemma EventGateCarries(c: Config, from: int, clock: int, call: Call, ctx: Ctx, e: Id, row: Event, db: Db)
    requires LoadsEvent(call, row.publicId) && e in db.events && SameEvent(row, db.events[e])
    ensures var g := GateEventTenant(call, ctx, e, row, db);
            (g.Begin? ==> Carries(c, from, clock, call, ctx, db, g.txn)) && !g.LoadTenantOf? && !g.SweepFirst?
  {
    hide SubjectOf, TenantOf, WritableTenant;
  }

  /** Time passes and other requests commit; what a request carries stays so. */
  lemma CarriesStays(c: Config, from: int, to: int, to': int, call: Call, ctx: Ctx, db: Db, db': Db, x: Txn)
    requires Carries(c, from, to, call, ctx, db, x) && to <= to' && Forward(db, db')
    ensures Carries(c, from, to', call, ctx, db', x)
  {
    hide SubjectOf, TenantOf, TrimSpace, NamedEvent;
    NamesStay(db, db');
  }

  lemma StatementReads(x: Txn, st: Stage, seen: Seen, db: Db, clock: int, from: int)
    requires ReadSince(from, clock, seen) && from <= clock && Execute(x, st, seen, db, clock).Go?
    ensures ReadSince(from, clock, Execute(x, st, seen, db, clock).seen)
  {
    hide TenantByPublicId, InvitationByToken, InvitationByPublicId, Owners;
  }

  // ---------------------------------------------------------------- over every run

  lemma ActServes(c: Config, from: int, s: State, r: nat)
    requires Inv(c, s) && r in s.reqs && ServesCall(c, from, s, r) && from <= s.clock
    ensures ServesCall(c, from, Next(c, s, Act(r)), r)
  {
    hide DbOk, LocksOk, ParamsOk, StageOk, Carries, Gate, GateEventTenant, Execute, Wants, ReadSince, Sweep,
         SweepFree, NewTenantRow, ExecRegister, LoadsEvent, ApplyAll, Forward;
    var q := s.reqs[r];
    var s' := Next(c, s, Act(r));
    NextKeepsInv(c, s, Act(r));
    assert ReqOk(c, s.db, q);
    match q.phase
    case Start =>
      GateCarries(c, from, s.clock, q.call, q.ctx, s.db);
      GateEstablishes(c, s.clock, q.call, q.ctx, s.db);
      NothingRead(from, s.clock);
    case EventSeen(e, row) =>
      EventGateCarries(c, from, s.clock, q.call, q.ctx, e, row, s.db);
      NothingRead(from, s.clock);
    case Run(x, st, seen, held, pending) =>
      CarriesStays(c, from, s.clock, s.clock, q.call, q.ctx, s.db, s'.db, x);
      if st == CommitPoint {
        AddedIsNamed(c, from, s.clock, q.call, q.ctx, s'.db, x);
      } else if Execute(x, st, seen, s.db, s.clock).Go? {
        StatementReads(x, st, seen, s.db, s.clock, from);
      }
    case _ =>
  }

  lemma NothingRead(from: int, to: int)
    ensures ReadSince(from, to, Nothing)
  {
  }

  lemma AddedIsNamed(c: Config, from: int, to: int, call: Call, ctx: Ctx, db: Db, x: Txn)
    requires Carries(c, from, to, call, ctx, db, x)
    ensures x.AddMember? ==> call.AddTenantMember? && x.user == call.user && Names(db, x.tenant, call.tenant)
  {
  }

  lemma OthersServe(c: Config, from: int, s: State, l: Label, r: nat)
    requires Inv(c, s) && ServesCall(c, from, s, r) && from <= s.clock && l != Act(r)
    ensures ServesCall(c, from, Next(c, s, l), r)
  {
    hide DbOk, LocksOk, ReqsOk, Carries, ActStep, Wants, Forward, LoadsEvent;
    var s' := Next(c, s, l);
    NextKeepsInv(c, s, l);
    if r in s.reqs {
      var q := s.reqs[r];
      if l.Tick? || l.request != r { OthersUnmoved(c, s, l, r); }
      NamesStay(s.db, s'.db);
      ClockRuns(c, s, l);
      if q.phase.Run? { CarriesStays(c, from, s.clock, s'.clock, q.call, q.ctx, s.db, s'.db, q.phase.txn); }
    } else if r in s'.reqs {
      NewRequests(c, s, l, r);
    }
  }

  lemma ClockRuns(c: Config, s: State, l: Label)
    ensures s.clock <= Next(c, s, l).clock
  {
    hide Gate, GateEventTenant, Wants, Execute, ExecRegister, Sweep, SweepFree, NewTenantRow, ApplyAll, Free;
  }

  /** From its arrival on a request serves its own call, whatever else runs. */
  lemma {:induction false} RequestsServeTheirCalls(c: Config, from: int, s: State, ls: seq<Label>, r: nat)
    requires Inv(c, s) && ServesCall(c, from, s, r) && from <= s.clock
    ensures ServesCall(c, from, After(c, s, ls), r)
    decreases |ls|
  {
    hide Inv, Next, ServesCall;
    if ls != [] {
      var s1 := Next(c, s, ls[0]);
      NextKeepsInv(c, s, ls[0]);
      ClockRuns(c, s, ls[0]);
      ServesOn(c, from, s, ls[0], r);
      RequestsServeTheirCalls(c, from, s1, ls[1..], r);
    }
  }

  lemma ServesOn(c: Config, from: int, s: State, l: Label, r: nat)
    requires Inv(c, s) && ServesCall(c, from, s, r) && from <= s.clock
    ensures ServesCall(c, from, Next(c, s, l), r)
  {
    hide Inv, Next, Carries, ReadSince, LoadsEvent, Names;
    if l != Act(r) {
      OthersServe(c, from, s, l, r);
    } else if r in s.reqs {
      ActServes(c, from, s, r);
    } else {
      NoActor(c, s, r);
    }
  }

  lemma NoActor(c: Config, s: State, r: nat)
    requires r !in s.reqs
    ensures Next(c, s, Act(r)) == s
  {
    hide ActStep;
  }

  // ---------------------------------------------------------------- what it commits

  lemma NamedIsFound(db: Db, x: Txn)
    requires DbOk(db)
    ensures forall t, p :: Names(db, t, p) ==> TenantByPublicId(db, p) == Some(t)
    ensures forall e, p :: NamedEvent(db, e, p) ==> EventByPublicId(db, p) == Some(e)
  {
    hide DbOk, TenantByPublicId, EventByPublicId;
    forall t, p | Names(db, t, p) ensures TenantByPublicId(db, p) == Some(t) { TenantFound(db, t); }
    forall e, p | NamedEvent(db, e, p) ensures EventByPublicId(db, p) == Some(e) { EventFound(db, e); }
  }

  /** The time a transaction read the clock: an invitation's expiry is counted from its gate. */
  function ReadAt(c: Config, x: Txn, o: Obs): int { if x.Invite? then x.row.expiresAt - c.invitationTtl else o.now }

  lemma MembershipEffect(c: Config, from: int, to: int, call: Call, ctx: Ctx, db: Db, x: Txn, o: Obs)
    requires DbOk(db) && ParamsOk(db, x) && Carries(c, from, to, call, ctx, db, x) && Exec(x, o, db).Committed?
    requires x.ChangeRole? || x.RevokeMember? || x.GrantRole? || x.RevokeEventRole? || x.AddMember?
    ensures TakesEffect(c, call, ctx, ReadAt(c, x, o), db, Exec(x, o, db).db)
  {
    hide DbOk, SubjectOf, TenantOf, TrimSpace, TenantByPublicId, EventByPublicId, Require, KeepAnotherOwner;
    NamedIsFound(db, x);
    if x.GrantRole? && RoleKey(x.event, x.user) in db.eventRoles { RoleHome(db, RoleKey(x.event, x.user)); }
  }

  lemma InvitationEffect(c: Config, from: int, to: int, call: Call, ctx: Ctx, db: Db, x: Txn, o: Obs)
    requires DbOk(db) && ParamsOk(db, x) && Carries(c, from, to, call, ctx, db, x) && Exec(x, o, db).Committed?
    requires x.Invite? || x.AcceptInvite? || x.RevokeInvite?
    ensures TakesEffect(c, call, ctx, ReadAt(c, x, o), db, Exec(x, o, db).db)
  {
    hide DbOk, SubjectOf, TenantOf, TrimSpace, TenantByPublicId, InvitationByToken, InvitationByPublicId, Require,
         InvitationPublicIdTaken, TokenTaken;
    NamedIsFound(db, x);
    if x.AcceptInvite? { InvitationHome(db, InvitationByToken(db, x.tenant, x.token).value); }
  }

  lemma TenantEffect(c: Config, from: int, to: int, call: Call, ctx: Ctx, db: Db, x: Txn, o: Obs)
    requires DbOk(db) && ParamsOk(db, x) && Carries(c, from, to, call, ctx, db, x) && Exec(x, o, db).Committed?
    requires x.ClaimTenant? || x.ChangePlan? || x.ArchiveTenant? || x.NewEvent? || x.SetStatus?
    ensures TakesEffect(c, call, ctx, ReadAt(c, x, o), db, Exec(x, o, db).db)
  {
    hide DbOk, SubjectOf, TenantOf, TrimSpace, TenantByPublicId, EventByPublicId, Require, SubdomainTaken,
         EventPublicIdTaken, Grantable;
    NamedIsFound(db, x);
  }

  lemma ReadAtIsSince(c: Config, from: int, s: State, r: nat)
    requires Inv(c, s) && r in s.reqs && ServesCall(c, from, s, r) && from <= s.clock && StepOf(c, s, Act(r)).Commits?
    ensures var ch := StepOf(c, s, Act(r));
            ch.request == r && from <= ReadAt(c, ch.txn, ch.obs) <= s.clock &&
            Carries(c, from, s.clock, s.reqs[r].call, s.reqs[r].ctx, s.db, ch.txn)
  {
    hide DbOk, LocksOk, ReqsOk, Gate, GateEventTenant, Wants, Execute, ExecRegister, SweepFree, NewTenantRow;
    PointIs(c, s, Act(r));
    CarriedExpiry(c, from, s.clock, s.reqs[r].call, s.reqs[r].ctx, s.db, s.reqs[r].phase.txn);
  }

  lemma CarriedExpiry(c: Config, from: int, to: int, call: Call, ctx: Ctx, db: Db, x: Txn)
    requires Carries(c, from, to, call, ctx, db, x)
    ensures x.Invite? ==> from <= x.row.expiresAt - c.invitationTtl <= to
  {
  }

  /** The step of r commits its transaction, or its registration. */
  ghost predicate CommitsNow(c: Config, s: State, r: nat) { StepOf(c, s, Act(r)).Commits? || StepOf(c, s, Act(r)).Registers? }

  lemma CommitHasEffect(c: Config, from: int, s: State, r: nat) returns (at: int)
    requires Inv(c, s) && r in s.reqs && ServesCall(c, from, s, r) && from <= s.clock && CommitsNow(c, s, r)
    ensures from <= at <= s.clock && TakesEffect(c, s.reqs[r].call, s.reqs[r].ctx, at, s.db, Next(c, s, Act(r)).db)
  {
    hide DbOk, LocksOk, ReqsOk, Next, Point, Exec, ExecRegister, Carries, ParamsOk, TakesEffect, PendingRow,
         ServesCall;
    var call, ctx := s.reqs[r].call, s.reqs[r].ctx;
    StepCommits(c, s, Act(r));
    match StepOf(c, s, Act(r))
    case Commits(_, x, o) =>
      ReadAtIsSince(c, from, s, r);
      at := ReadAt(c, x, o);
      if x.ChangeRole? || x.RevokeMember? || x.GrantRole? || x.RevokeEventRole? || x.AddMember? {
        MembershipEffect(c, from, s.clock, call, ctx, s.db, x, o);
      } else if x.Invite? || x.AcceptInvite? || x.RevokeInvite? {
        InvitationEffect(c, from, s.clock, call, ctx, s.db, x, o);
      } else {
        TenantEffect(c, from, s.clock, call, ctx, s.db, x, o);
      }
    case Registers(id, row) =>
      at := RegistrationEffect(c, from, s, r);
  }

  lemma RegistrationEffect(c: Config, from: int, s: State, r: nat) returns (at: int)
    requires Inv(c, s) && r in s.reqs && ServesCall(c, from, s, r) && StepOf(c, s, Act(r)).Registers?
    ensures from <= at <= s.clock && TakesEffect(c, s.reqs[r].call, s.reqs[r].ctx, at, s.db, Next(c, s, Act(r)).db)
  {
    hide DbOk, LocksOk, ReqsOk, Gate, GateEventTenant, Wants, Execute, SweepFree, Sweep, ActRun, Carries,
         TenantByPublicId;
    assert s.reqs[r].phase.Swept? && s.reqs[r].call.StartTenantRegistration?;
    at := s.reqs[r].phase.now;
  }

  lemma {:induction false} CallsStay(c: Config, s: State, ls: seq<Label>, r: nat)
    requires r in s.reqs
    ensures r in After(c, s, ls).reqs && After(c, s, ls).reqs[r].call == s.reqs[r].call && After(c, s, ls).reqs[r].ctx == s.reqs[r].ctx
    decreases |ls|
  {
    hide Next;
    if ls != [] {
      CallStays(c, s, ls[0], r);
      CallsStay(c, Next(c, s, ls[0]), ls[1..], r);
    }
  }

  lemma CallStays(c: Config, s: State, l: Label, r: nat)
    requires r in s.reqs
    ensures var s' := Next(c, s, l); r in s'.reqs && s'.reqs[r].call == s.reqs[r].call && s'.reqs[r].ctx == s.reqs[r].ctx
  {
    hide Gate, GateEventTenant, Execute, Wants, ExecRegister, Sweep, SweepFree, NewTenantRow, ApplyAll;
  }

  /** All that is known of the request of a call that arrived in s. */
  lemma ReachesArrived(c: Config, s: State, ls: seq<Label>, r: nat, call: Call, ctx: Ctx)
    requires Reachable(c, s) && r !in s.reqs
    ensures var s1 := After(c, Next(c, s, Arrive(r, call, ctx)), ls);
            Reachable(c, s1) && s.clock <= s1.clock && ServesCall(c, s.clock, s1, r) && r in s1.reqs && s1.reqs[r].call == call &&
            s1.reqs[r].ctx == ctx
  {
    hide Reachable, Inv, Next, After, ServesCall;
    var s0 := Next(c, s, Arrive(r, call, ctx));
    ReachableInv(c, s);
    NextKeepsInv(c, s, Arrive(r, call, ctx));
    ArrivesServing(c, s, r, call, ctx);
    RequestsServeTheirCalls(c, s.clock, s0, ls, r);
    CallsStay(c, s0, ls, r);
    ClocksRun(c, s0, ls);
    AfterStep(c, s, Arrive(r, call, ctx), ls);
    ReachesOn(c, s, [Arrive(r, call, ctx)] + ls);
  }

  /** Whatever else runs, a request that acts changes the tables in one of two ways: it commits, and then
      makes exactly the change that its call asks for, by a clock read between its arrival and now; or it
      is a registration that sweeps. */
  lemma CommitsServeTheirCalls(c: Config, s: State, ls: seq<Label>, r: nat, call: Call, ctx: Ctx)
    requires Reachable(c, s) && r !in s.reqs
    ensures var s1 := After(c, Next(c, s, Arrive(r, call, ctx)), ls);
            var s2 := Next(c, s1, Act(r));
            if CommitsNow(c, s1, r) then exists at :: s.clock <= at <= s1.clock && TakesEffect(c, call, ctx, at, s1.db, s2.db)
            else s2.db == s1.db ||
                 (call.StartTenantRegistration? && exists now :: s.clock <= now <= s1.clock && s2.db == Sweep(s1.db, now))
  {
    hide Reachable, Inv, Next, After, ServesCall, Point, Exec, ExecRegister, TakesEffect, ParamsOk, PendingRow, Sweep;
    var s1 := After(c, Next(c, s, Arrive(r, call, ctx)), ls);
    ReachesArrived(c, s, ls, r, call, ctx);
    ReachableInv(c, s1);
    if CommitsNow(c, s1, r) {
      var at := CommitHasEffect(c, s.clock, s1, r);
    } else {
      StepCommits(c, s1, Act(r));
      if StepOf(c, s1, Act(r)).Sweeps? { SweepIsSince(c, s.clock, s1, r); }
    }
  }

  lemma ArrivesServing(c: Config, s: State, r: nat, call: Call, ctx: Ctx)
    requires r !in s.reqs
    ensures var s0 := Next(c, s, Arrive(r, call, ctx));
            s0.clock == s.clock && r in s0.reqs && s0.reqs[r] == Req(call, ctx, Start) && ServesCall(c, s.clock, s0, r)
  {
    hide ActStep;
  }

  lemma {:induction false} ClocksRun(c: Config, s: State, ls: seq<Label>)
    ensures s.clock <= After(c, s, ls).clock
    decreases |ls|
  {
    hide Next;
    if ls != [] {
      ClockRuns(c, s, ls[0]);
      ClocksRun(c, Next(c, s, ls[0]), ls[1..]);
    }
  }

  lemma SweepIsSince(c: Config, from: int, s: State, r: nat)
    requires Inv(c, s) && r in s.reqs && ServesCall(c, from, s, r) && StepOf(c, s, Act(r)).Sweeps?
    ensures s.reqs[r].call.StartTenantRegistration? && from <= StepOf(c, s, Act(r)).now <= s.clock
  {
    hide DbOk, LocksOk, Gate, GateEventTenant, Wants, Execute, ExecRegister, SweepFree, NewTenantRow, Carries;
    PointIs(c, s, Act(r));
    assert ReqOk(c, s.db, s.reqs[r]);
  }

  // ---------------------------------------------------------------- the last owner, told from the call

  /** The call takes the owner role from u, and u is the only owner of the tenant it names. */
  ghost predicate TakesLastOwner(call: Call, db: Db) {
    match call
    case ChangeTenantRole(p, u, role) => role != RoleOwner && SoleOwnerOf(db, TenantByPublicId(db, p), u)
    case RevokeRole(u, p, _) => p != "" && SoleOwnerOf(db, TenantByPublicId(db, p), u)
    case _ => false
  }

  lemma TakesOwnRole(c: Config, from: int, to: int, call: Call, ctx: Ctx, db: Db, x: Txn)
    requires DbOk(db) && Carries(c, from, to, call, ctx, db, x) && ChecksLastOwner(x)
    ensures Owners(db, x.tenant) == {x.user} <==> TakesLastOwner(call, db)
  {
    hide DbOk, Owners, SubjectOf, TenantOf, TenantByPublicId;
    NamedIsFound(db, x);
  }

  /** A request is told that the tenant must keep an owner exactly at the count of its owners, and exactly
      when its call would take away the last one. */
  lemma LastOwnerOfCall(c: Config, s: State, ls: seq<Label>, r: nat, call: Call, ctx: Ctx, l: Label)
    requires Reachable(c, s) && r !in s.reqs
    ensures var s1 := After(c, Next(c, s, Arrive(r, call, ctx)), ls);
            r in s1.reqs &&
            (!ToldLastOwner(s1, r) ==>
              (ToldLastOwner(Next(c, s1, l), r) <==>
                 l == Act(r) && s1.reqs[r].phase.Run? && s1.reqs[r].phase.stage == CountOwners && TakesLastOwner(call, s1.db)))
  {
    hide Reachable, DbOk, LocksOk, Next, After, Carries, StageOk, ParamsOk, Owners, TakesLastOwner;
    var s0 := Next(c, s, Arrive(r, call, ctx));
    var s1 := After(c, s0, ls);
    ReachesArrived(c, s, ls, r, call, ctx);
    ReachableInv(c, s1);
    assert ReqOk(c, s1.db, s1.reqs[r]);
    if !ToldLastOwner(s1, r) {
      LastOwnerExactly(c, s1, l, r);
      if s1.reqs[r].phase.Run? && s1.reqs[r].phase.stage == CountOwners {
        var Run(x, st, seen, held, pending) := s1.reqs[r].phase;
        LastOwnerStage(c, s1.db, x, st, seen, held, pending, s1.clock);
        TakesOwnRole(c, s.clock, s1.clock, call, ctx, s1.db, x);
      }
    }
  }

  // ---------------------------------------------------------------- round trips

  /** What a schedule makes of the state in which request r arrives with a call. */
  ghost function Since(c: Config, s: State, r: nat, call: Call, ctx: Ctx, ls: seq<Label>): State {
    After(c, Next(c, s, Arrive(r, call, ctx)), ls)
  }

  /** An invitation that was created, by any request in any run, can be accepted with the token that was
      handed out: for the lifetime of invitations from its arrival on, whatever ran in between, an
      acceptance by a caller who is no member succeeds and makes that caller a staff member under the
      invitation's name, unless the invitation has been closed or the tenant archived. */
  lemma InvitationsCanBeAccepted(c: Config, s: State, r: nat, call: Call, ctx: Ctx, ls: seq<Label>, ls': seq<Label>, guest: Ctx, u: Id)
    requires Reachable(c, s) && r !in s.reqs && call.CreateTenantInvitation? && call.tenant != "" && call.token != ""
    requires CommitsNow(c, Since(c, s, r, call, ctx, ls), r)
    requires var s2 := After(c, Next(c, Since(c, s, r, call, ctx, ls), Act(r)), ls');
             s2.clock < s.clock + c.invitationTtl && SubjectOf(guest) == Some(u) && TenantOf(guest) in {None, Some(call.tenant)}
    ensures var s2 := After(c, Next(c, Since(c, s, r, call, ctx, ls), Act(r)), ls');
            var i := call.newId;
            i in s2.db.invitations &&
            var row := s2.db.invitations[i];
            var k := MemberKey(row.tenantId, u);
            NamedTenant(s2.db, row.tenantId, call.tenant) &&
            (StateOf(row) == InvitationPending && !s2.db.tenants[row.tenantId].archived && k !in s2.db.members ==>
               Alone(c, s2.clock, AcceptTenantInvitation(call.tenant, call.token), guest, s2.db) ==
               Answer(Success, s2.db.(members := s2.db.members[k := Member(RoleStaff, TrimSpace(call.displayName))],
                                      invitations := s2.db.invitations[i := row.(accepted := Some(Acceptance(s2.clock, u)))])))
  {
    hide Reachable, Inv, Next, After, Since, DbOk, Point, TakesEffect, SubjectOf, TenantOf, TrimSpace, Alone,
         CommitsNow;
    var s1 := Since(c, s, r, call, ctx, ls);
    var s1' := Next(c, s1, Act(r));
    var s2 := After(c, s1', ls');
    assert Since(c, s, r, call, ctx, ls) == After(c, Next(c, s, Arrive(r, call, ctx)), ls) by { SinceIs(c, s, r, call, ctx, ls); }
    CommitsServeTheirCalls(c, s, ls, r, call, ctx);
    ReachesArrived(c, s, ls, r, call, ctx);
    ReachesNext(c, s1, Act(r));
    var at :| s.clock <= at <= s1.clock && TakesEffect(c, call, ctx, at, s1.db, s1'.db);
    var t := InvitedRow(c, call, ctx, at, s1.db, s1'.db);
    ClosesAtMostOnce(c, s1', ls', call.newId);
    ReachesOn(c, s1', ls');
    ReachableInv(c, s1');
    ReachableInv(c, s2);
    InvitationHome(s1'.db, call.newId);
    TenantsMoveForward(c, s1', ls', t);
    AcceptsExactly(c, s2.clock, call.tenant, call.token, guest, s2.db);
    var row := s2.db.invitations[call.newId];
    if StateOf(row) == InvitationPending && !s2.db.tenants[t].archived && MemberKey(t, u) !in s2.db.members {
      assert MayAccept(c, s2.clock, call.tenant, call.token, guest, s2.db, t, u, call.newId);
    }
  }

  lemma SinceIs(c: Config, s: State, r: nat, call: Call, ctx: Ctx, ls: seq<Label>)
    ensures Since(c, s, r, call, ctx, ls) == After(c, Next(c, s, Arrive(r, call, ctx)), ls)
  {
  }

  lemma ReachesNext(c: Config, s: State, l: Label)
    requires Reachable(c, s)
    ensures Reachable(c, Next(c, s, l))
  {
    hide Reachable, Next, After;
    AfterOne(c, s, l);
    ReachesOn(c, s, [l]);
  }

  lemma InvitedRow(c: Config, call: Call, ctx: Ctx, at: int, db: Db, db': Db) returns (t: Id)
    requires call.CreateTenantInvitation? && TakesEffect(c, call, ctx, at, db, db')
    ensures NamedTenant(db', t, call.tenant) && call.newId in db'.invitations
    ensures db'.invitations[call.newId] == Invitation(call.newPublicId, t, RoleStaff, TrimSpace(call.displayName), c.sha(call.token),
                                                      at + c.invitationTtl, None, None)
  {
    hide TrimSpace;
    t := TenantByPublicId(db, call.tenant).value;
  }

  /** A tenant that was registered, by any request in any run, can be claimed with the token that was
      handed out: for the lifetime of claims from the request's arrival on, whatever ran in between, a
      claim by a known caller with a free subdomain and a name that parses succeeds, unless the tenant has
      been claimed; the tenant then has the name and plan it was registered with. */
  lemma RegistrationsCanBeClaimed(c: Config, s: State, r: nat, call: Call, ctx: Ctx, ls: seq<Label>, ls': seq<Label>, claimer: Ctx, u: Id,
      subdomain: string, displayName: string)
    requires Reachable(c, s) && r !in s.reqs && call.StartTenantRegistration? && call.newPublicId != "" && call.token != ""
    requires CommitsNow(c, Since(c, s, r, call, ctx, ls), r)
    requires SubjectOf(claimer) == Some(u) && TenantOf(claimer) in {None, Some(call.newPublicId)}
    requires ValidSubdomain(subdomain) && ParseDisplayName(displayName).Ok?
    requires var s2 := After(c, Next(c, Since(c, s, r, call, ctx, ls), Act(r)), ls');
             s2.clock < s.clock + c.claimTtl && !SubdomainTaken(s2.db, subdomain)
    ensures var s2 := After(c, Next(c, Since(c, s, r, call, ctx, ls), Act(r)), ls');
            NamedTenant(s2.db, call.newId, call.newPublicId) &&
            (!OwnedTenant(s2.db, call.newId) ==>
               Alone(c, s2.clock, ClaimTenantOwnership(call.newPublicId, call.token, subdomain, displayName), claimer, s2.db) ==
               Answer(Success, s2.db.(members := s2.db.members[MemberKey(call.newId, u) := Member(RoleOwner, TrimSpace(displayName))],
                                      tenants := s2.db.tenants[call.newId :=
                                                   Tenant(call.newPublicId, call.name, call.plan, Owned, Some(subdomain), None, None,
                                                          false)])))
  {
    hide Reachable, Inv, Next, After, Since, DbOk, Point, TakesEffect, SubjectOf, TenantOf, TrimSpace,
         ParseDisplayName, ValidSubdomain, Alone, CommitsNow, SubdomainTaken;
    var s1 := Since(c, s, r, call, ctx, ls);
    var s1' := Next(c, s1, Act(r));
    var s2 := After(c, s1', ls');
    assert Since(c, s, r, call, ctx, ls) == After(c, Next(c, s, Arrive(r, call, ctx)), ls) by { SinceIs(c, s, r, call, ctx, ls); }
    CommitsServeTheirCalls(c, s, ls, r, call, ctx);
    ReachesArrived(c, s, ls, r, call, ctx);
    ReachesNext(c, s1, Act(r));
    var at :| s.clock <= at <= s1.clock && TakesEffect(c, call, ctx, at, s1.db, s1'.db);
    StoredTenant(c, call, ctx, at, s1.db, s1'.db);
    ReachableInv(c, s1');
    ReachableTimes(c, s1');
    PendingTenantsWait(c, s1', ls', call.newId);
    ReachesOn(c, s1', ls');
    ReachableInv(c, s2);
    if !OwnedTenant(s2.db, call.newId) {
      ClaimsAlone(c, s2.clock, s2.db, call.newId, call.newPublicId, call.token, subdomain, displayName, claimer, u);
    }
  }

  lemma StoredTenant(c: Config, call: Call, ctx: Ctx, at: int, db: Db, db': Db)
    requires call.StartTenantRegistration? && TakesEffect(c, call, ctx, at, db, db')
    ensures call.newId in db'.tenants
    ensures db'.tenants[call.newId] == Tenant(call.newPublicId, call.name, call.plan, PendingOwner, None, Some(c.sha(call.token)),
                                              Some(at + c.claimTtl), false)
  {
  }

  /** A claim that passes every check, run by itself. */
  lemma ClaimsAlone(c: Config, now: int, db: Db, t: Id, p: Id, token: string, subdomain: string, displayName: string, ctx: Ctx, u: Id)
    requires DbOk(db) && p != "" && token != "" && NamedTenant(db, t, p) && LiveClaim(db.tenants[t], c.sha(token), now)
    requires SubjectOf(ctx) == Some(u) && TenantOf(ctx) in {None, Some(p)}
    requires ValidSubdomain(subdomain) && ParseDisplayName(displayName).Ok? && !SubdomainTaken(db, subdomain)
    ensures var row := db.tenants[t];
            Alone(c, now, ClaimTenantOwnership(p, token, subdomain, displayName), ctx, db) ==
            Answer(Success, db.(members := db.members[MemberKey(t, u) := Member(RoleOwner, TrimSpace(displayName))],
                                tenants := db.tenants[t := Tenant(p, row.name, row.plan, Owned, Some(subdomain), None, None,
                                                                  row.archived)]))
  {
    hide DbOk, Alone, SubjectOf, TenantOf, TrimSpace, ParseDisplayName, NameChecks, ValidSubdomain, SubdomainTaken,
         TenantByPublicId;
    AnswersExactly(c, now, ClaimTenantOwnership(p, token, subdomain, displayName), ctx, db);
    NameGate(displayName);
    NameFinds(db, p);
  }

  // ---------------------------------------------------------------- there are such runs

  function Guest(u: Id): Ctx { Ctx(Some(Claims(u, "")), None) }

  lemma GuestNames(u: Id)
    requires u != "" && TrimSpace(u) == u
    ensures SubjectOf(Guest(u)) == Some(u) && TenantOf(Guest(u)) == None
  {
    assert TrimSpace("") == "";
  }

  lemma InvitingAlone(c: Config, now: int, db: Db, w: Newcomer, i: Id, p: Id, token: string)
    requires Welcome(w) && DbOk(db) && OwnedTenant(db, w.id) && !db.tenants[w.id].archived && db.tenants[w.id].publicId == w.publicId
    requires IsOwner(db, w.id, w.user) && db.invitations == map[]
    ensures Alone(c, now, CreateTenantInvitation(w.publicId, RoleStaff, w.name, i, p, token), ContextOf(w), db) ==
            Answer(Success, db.(invitations := map[i := Invitation(p, w.id, RoleStaff, w.name, c.sha(token), now + c.invitationTtl,
                                                                   None, None)]))
  {
    hide DbOk, Alone, SubjectOf, TenantOf, ParseDisplayName, ValidSubdomain, TrimSpace, Welcome;
    ContextNames(w);
    InvitesExactly(c, now, w.publicId, RoleStaff, w.name, i, p, token, ContextOf(w), db);
    assert Administrates(ContextOf(w), w.publicId, db, w.id);
    assert NamedTenant(db, w.id, w.publicId);
  }

  lemma AcceptingAlone(c: Config, now: int, db: Db, w: Newcomer, u: Id, i: Id, token: string)
    requires DbOk(db) && w.publicId != "" && token != "" && u != "" && TrimSpace(u) == u && NamedTenant(db, w.id, w.publicId)
    requires OwnedTenant(db, w.id) && !db.tenants[w.id].archived && MemberKey(w.id, u) !in db.members
    requires i in db.invitations && LiveInvitation(db.invitations[i], now) && db.invitations[i].tokenHash == c.sha(token)
    requires db.invitations[i].tenantId == w.id && db.invitations[i].name == w.name
    ensures var a := Alone(c, now, AcceptTenantInvitation(w.publicId, token), Guest(u), db);
            a.reply == Success && MemberKey(w.id, u) in a.db.members && a.db.members[MemberKey(w.id, u)] == Member(RoleStaff, w.name)
  {
    hide DbOk, Alone, SubjectOf, TenantOf, TrimSpace;
    GuestNames(u);
    AcceptsExactly(c, now, w.publicId, token, Guest(u), db);
    assert MayAccept(c, now, w.publicId, token, Guest(u), db, w.id, u, i);
  }

  predicate Joined(s: State, t: Id, u: Id, name: string) {
    MemberKey(t, u) in s.db.members && s.db.members[MemberKey(t, u)] == Member(RoleStaff, name)
  }

  /** The invitation and the acceptance are both answered with success. */
  predicate BothSucceed(s: State, w: Newcomer, u: Id, i: Id, p: Id, token: string) {
    2 in s.reqs && s.reqs[2] == Req(CreateTenantInvitation(w.publicId, RoleStaff, w.name, i, p, token), ContextOf(w), Done(Success)) &&
    3 in s.reqs && s.reqs[3] == Req(AcceptTenantInvitation(w.publicId, token), Guest(u), Done(Success))
  }

  /** From the empty database an owner can invite, and the guest accept: both are told so, and the guest is
      a staff member under the name of the invitation. */
  lemma AcceptancesHappen(c: Config, w: Newcomer, u: Id, i: Id, p: Id, token: string)
    requires Welcome(w) && c.claimTtl > 0 && c.invitationTtl > 0 && token != "" && u != "" && TrimSpace(u) == u && u != w.user
    ensures exists s :: Reachable(c, s) && BothSucceed(s, w, u, i, p, token) && Joined(s, w.id, u, w.name)
  {
    hide Reachable, After, Welcome, SubjectOf, TenantOf, Alone, DbOk, Inv, ParseDisplayName, TrimSpace;
    var s := NewcomersArrive(c, w);
    ReachableInv(c, s);
    InvitingAlone(c, s.clock, s.db, w, i, p, token);
    var s1 := CallCompletes(c, s, 2, CreateTenantInvitation(w.publicId, RoleStaff, w.name, i, p, token), ContextOf(w));
    ReachableInv(c, s1);
    ContextNames(w);
    AcceptingAlone(c, s1.clock, s1.db, w, u, i, token);
    var s2 := CallCompletes(c, s1, 3, AcceptTenantInvitation(w.publicId, token), Guest(u));
    assert BothSucceed(s2, w, u, i, p, token) && Joined(s2, w.id, u, w.name);
  }
}

/** Runs in which a request is overtaken: an event is committed into a tenant after its archival, an event
    of an archived tenant changes its status, and a member insert is told that there is no such
    membership. */
module ArchiveRaces {
  import opened Domain
  import opened Subdomains
  import opened TenantContext
  import opened Tables
  import opened AtomicLaws
  import opened Machine
  import opened Invariant
  import opened Refinement
  import opened Schedules
  import opened Histories
  import opened ArchiveFreeze
  import opened Service
  import opened SoloRuns
  import opened Serialization

  /** Everything the two calls need: a tenant in use, an owner of it, and fresh identifiers. */
  ghost predicate Staged(s: State, t: Id, u: Id, ctx: Ctx, e: Id, ep: Id, r1: nat, r2: nat) {
    Unlocked(s) && r1 !in s.reqs && r2 !in s.reqs && r1 != r2 &&
    OwnedTenant(s.db, t) && !s.db.tenants[t].archived && s.db.tenants[t].publicId != "" && IsOwner(s.db, t, u) &&
    SubjectOf(ctx) == Some(u) && TenantOf(ctx) == Some(s.db.tenants[t].publicId) &&
    e !in s.db.events && !EventPublicIdTaken(s.db, ep)
  }

  /** One statement of an unhindered transaction. */
  lemma StatementPasses(c: Config, s: State, r: nat, x: Txn, st: Stage, seen: Seen, held: set<Lock>)
    returns (ls: seq<Label>, all: set<Lock>)
    requires RunningAs(s, r, x, st, seen, held, []) && Unhindered(c, s, r, x)
    requires st != CommitPoint && Execute(x, st, seen, s.db, s.clock).Go? && Execute(x, st, seen, s.db, s.clock).writes == []
    ensures held <= all <= held + Needs(c, x, st, seen, s.db)
    ensures var e := Execute(x, st, seen, s.db, s.clock); After(c, s, ls) == SetPhase(s, r, Run(x, e.stage, e.seen, all, []))
  {
    hide After, Next, Wants, Execute, Needs, Unhindered;
    var takes;
    takes, all := TakesItsLocks(c, s, r, x, st, seen, held, []);
    var s1 := SetPhase(s, r, Run(x, st, seen, all, []));
    ActMoves(c, s1, r, x, st, seen, all, []);
    assert [] + Execute(x, st, seen, s.db, s.clock).writes == [];
    ls := takes + [Act(r)];
    AfterConcat(c, s, takes, [Act(r)]);
    AfterOne(c, s1, Act(r));
  }

  /** A call that begins at once. */
  lemma Begins(c: Config, s: State, r: nat, call: Call, ctx: Ctx, x: Txn) returns (ls: seq<Label>)
    requires r !in s.reqs && Gate(c, s.clock, call, ctx, s.db) == Begin(x)
    ensures After(c, s, ls) == s.(reqs := s.reqs[r := Req(call, ctx, Run(x, FirstStage(x), Nothing, {}, []))])
  {
    hide After, Next, Gate;
    var s1 := s.(reqs := s.reqs[r := Req(call, ctx, Start)]);
    ArriveStep(c, s, r, call, ctx);
    GateStep(c, s1, r);
    ls := [Arrive(r, call, ctx)] + [Act(r)];
    AfterStep(c, s, Arrive(r, call, ctx), [Act(r)]);
    AfterOne(c, s1, Act(r));
  }

  lemma GatesOpen(c: Config, clock: int, db: Db, t: Id, u: Id, ctx: Ctx, name: string, e: Id, ep: Id)
    requires DbOk(db) && OwnedTenant(db, t) && !db.tenants[t].archived && name != ""
    requires SubjectOf(ctx) == Some(u) && TenantOf(ctx) == Some(db.tenants[t].publicId) && db.tenants[t].publicId != ""
    ensures var p := db.tenants[t].publicId;
            Gate(c, clock, CreateEvent(p, name, e, ep), ctx, db) == Begin(NewEvent(t, u, e, Event(ep, t, p, name, Draft))) &&
            Gate(c, clock, ArchiveTenantCall(p), ctx, db) == Begin(ArchiveTenant(p, Some(u)))
  {
    hide DbOk, SubjectOf, TenantOf, ParseDisplayName, ValidSubdomain;
    TenantFound(db, t);
  }

  /** Share locks on memberships hinder no archival. */
  lemma SharesHinderNoArchival(c: Config, db: Db, p: Id, caller: Option<Id>, k: MemberKey)
    ensures ClashesWithNone(c, ArchiveTenant(p, caller), db, Lock(MemberRow(k), Share))
  {
    forall st, seen, l | l in Needs(c, ArchiveTenant(p, caller), st, seen, db) ensures !Clash(Lock(MemberRow(k), Share), l) {
    }
  }

  lemma ArchivalCommits(db: Db, t: Id, u: Id, o: Obs)
    requires DbOk(db) && OwnedTenant(db, t) && !db.tenants[t].archived && IsOwner(db, t, u)
    ensures Exec(ArchiveTenant(db.tenants[t].publicId, Some(u)), o, db) ==
              Committed(db.(tenants := db.tenants[t := db.tenants[t].(archived := true)]))
  {
    hide DbOk;
    TenantFound(db, t);
    WriteScope(RoleOwner);
  }

  lemma CreationCommits(db: Db, t: Id, u: Id, e: Id, row: Event, now: int)
    requires t in db.tenants && IsOwner(db, t, u) && e !in db.events && !EventPublicIdTaken(db, row.publicId)
    ensures Exec(NewEvent(t, u, e, row), Obs(now, true), db) ==
              Committed(db.(events := db.events[e := row], eventRoles := db.eventRoles[RoleKey(e, u) := EventRole(t, RoleOwner)]))
  {
  }

  /** The creation up to its insert: the caller's membership is share-locked, the archived flag has been
      read, the tenant is not locked. */
  lemma CreationReachesInsert(c: Config, s: State, r: nat, t: Id, u: Id, e: Id, row: Event) returns (ls: seq<Label>, held: set<Lock>)
    requires RunningAs(s, r, NewEvent(t, u, e, row), Authorize, Nothing, {}, []) && LocksNobody(s, r)
    requires OwnedTenant(s.db, t) && !s.db.tenants[t].archived && IsOwner(s.db, t, u)
    ensures After(c, s, ls) == SetPhase(s, r, Run(NewEvent(t, u, e, row), InsertEvent, SawRole(RoleOwner), held, []))
    ensures held <= {Lock(MemberRow(MemberKey(t, u)), Share)}
  {
    hide After, Unhindered;
    var x := NewEvent(t, u, e, row);
    NeverHindered(c, s, r, x);
    var first, all := StatementPasses(c, s, r, x, Authorize, Nothing, {});
    var s1 := SetPhase(s, r, Run(x, GuardTenant, SawRole(RoleOwner), all, []));
    NeverHindered(c, s1, r, x);
    var second;
    second, held := StatementPasses(c, s1, r, x, GuardTenant, SawRole(RoleOwner), all);
    ls := first + second;
    AfterConcat(c, s, first, second);
  }

  /** The archival, while the creation waits before its insert. */
  lemma ArchivalOvertakes(c: Config, s: State, r1: nat, r2: nat, t: Id, u: Id, ctx: Ctx, held: set<Lock>) returns (ls: seq<Label>)
    requires Inv(c, s) && r1 in s.reqs && r2 !in s.reqs && LocksNobody(s, r1) && Held(s.reqs[r1]) == held
    requires held <= {Lock(MemberRow(MemberKey(t, u)), Share)}
    requires OwnedTenant(s.db, t) && !s.db.tenants[t].archived && IsOwner(s.db, t, u) && s.db.tenants[t].publicId != ""
    requires SubjectOf(ctx) == Some(u) && TenantOf(ctx) == Some(s.db.tenants[t].publicId)
    ensures var s' := After(c, s, ls);
            s'.clock == s.clock && s'.reqs.Keys == s.reqs.Keys + {r2} && s'.reqs[r1] == s.reqs[r1] && LocksNobody(s', r1) &&
            s'.reqs[r2].phase == Done(Success) && s'.db == s.db.(tenants := s.db.tenants[t := s.db.tenants[t].(archived := true)])
  {
    hide Inv, DbOk, After, Next, Gate, Exec, SubjectOf, TenantOf, Unhindered, ClashesWithNone, Fresh;
    InvDb(c, s);
    var p := s.db.tenants[t].publicId;
    var x := ArchiveTenant(p, Some(u));
    GatesOpen(c, s.clock, s.db, t, u, ctx, "e", "", "");
    var first := Begins(c, s, r2, ArchiveTenantCall(p), ctx, x);
    var s1 := s.(reqs := s.reqs[r2 := Req(ArchiveTenantCall(p), ctx, Run(x, FirstStage(x), Nothing, {}, []))]);
    ScheduleKeepsInv(c, s, first);
    assert Unhindered(c, s1, r2, x) by { OneShareHindersNot(c, s1, r1, r2, p, u, MemberKey(t, u)); }
    BeginIsFresh(x, s.db, s.clock);
    var rest := TransactionCompletes(c, s1, r2, x, FirstStage(x), Nothing, {}, [], ReadsOpen(x, s.db));
    ArchivalCommits(s.db, t, u, Obs(s.clock, ReadsOpen(x, s.db)));
    ls := first + rest;
    AfterConcat(c, s, first, rest);
  }

  lemma OneShareHindersNot(c: Config, s: State, r1: nat, r2: nat, p: Id, u: Id, k: MemberKey)
    requires forall q :: q in s.reqs && q != r1 ==> Held(s.reqs[q]) == {}
    requires r1 in s.reqs ==> Held(s.reqs[r1]) <= {Lock(MemberRow(k), Share)}
    ensures Unhindered(c, s, r2, ArchiveTenant(p, Some(u)))
  {
    hide ClashesWithNone;
    SharesHinderNoArchival(c, s.db, p, Some(u), k);
  }

  /** An event that appears in tenant t between two states in both of which t is archived. */
  predicate CreatedAfterArchival(s: State, s': State, t: Id, e: Id) {
    ArchivedIn(s.db, t) && e !in s.db.events && ArchivedIn(s'.db, t) && EventOf(s'.db.events, t, e)
  }

  /** From every reachable state with a tenant in use and nobody holding locks, a creation and an
      archival of the tenant can interleave so that both succeed and the event is committed after the
      archival. */
  lemma CreationSurvivesArchival(c: Config, s: State, t: Id, u: Id, ctx: Ctx, name: string, e: Id, ep: Id, r1: nat, r2: nat)
    returns (s1: State, ls: seq<Label>)
    requires Reachable(c, s) && Staged(s, t, u, ctx, e, ep, r1, r2) && name != ""
    ensures Reachable(c, s1) && CreatedAfterArchival(s1, After(c, s1, ls), t, e)
    ensures var s2 := After(c, s1, ls);
            r1 in s2.reqs && r2 in s2.reqs && s2.reqs[r1].phase == Done(Success) && s2.reqs[r2].phase == Done(Success)
  {
    hide Reachable, Inv, DbOk, After, Next, Gate, Exec, SubjectOf, TenantOf, Unhindered, EventPublicIdTaken;
    ReachableInv(c, s);
    var p := s.db.tenants[t].publicId;
    var row := Event(ep, t, p, name, Draft);
    var x := NewEvent(t, u, e, row);
    GatesOpen(c, s.clock, s.db, t, u, ctx, name, e, ep);
    var a := Begins(c, s, r1, CreateEvent(p, name, e, ep), ctx, x);
    var sa := After(c, s, a);
    ReachesOn(c, s, a);
    var b, held := CreationReachesInsert(c, sa, r1, t, u, e, row);
    var sb := After(c, sa, b);
    ReachesOn(c, sa, b);
    ReachableInv(c, sb);
    var d := ArchivalOvertakes(c, sb, r1, r2, t, u, ctx, held);
    s1 := After(c, sb, d);
    ReachesOn(c, sb, d);
    ReachableInv(c, s1);
    NeverHindered(c, s1, r1, x);
    ls := TransactionCompletes(c, s1, r1, x, InsertEvent, SawRole(RoleOwner), held, [], true);
    FreshStays(s.db, s1.db, ep);
    CreationCommits(s1.db, t, u, e, row, s1.clock);
  }

  lemma FreshStays(db: Db, db': Db, ep: Id)
    requires db'.events == db.events && !EventPublicIdTaken(db, ep)
    ensures !EventPublicIdTaken(db', ep)
  {
  }

  // ---------------------------------------------------------------- a status change

  /** An event of t changes its status between two states in both of which t is archived. */
  predicate ChangedAfterArchival(s: State, s': State, t: Id, e: Id) {
    ArchivedIn(s.db, t) && EventOf(s.db.events, t, e) && ArchivedIn(s'.db, t) && EventOf(s'.db.events, t, e) &&
    s'.db.events[e].status != s.db.events[e].status
  }

  lemma StatusGateOpens(c: Config, clock: int, db: Db, e: Id, ctx: Ctx, to: EventStatus)
    requires DbOk(db) && e in db.events && db.events[e].publicId != "" && TenantOf(ctx) == Some(db.events[e].tenantPublicId)
    requires db.events[e].tenantPublicId != "" && CanTransition(db.events[e].status, to)
    ensures Gate(c, clock, TransitionEventStatus(db.events[e].publicId, to), ctx, db) == Begin(SetStatus(e, db.events[e].name, to))
  {
    hide DbOk, TenantOf, SubjectOf;
    EventFound(db, e);
  }

  lemma ChangeReachesUpdate(c: Config, s: State, r: nat, e: Id, name: string, to: EventStatus) returns (ls: seq<Label>)
    requires RunningAs(s, r, SetStatus(e, name, to), GuardStatus, Nothing, {}, []) && LocksNobody(s, r)
    requires e in s.db.events && OwnedTenant(s.db, s.db.events[e].tenantId) && !s.db.tenants[s.db.events[e].tenantId].archived
    ensures After(c, s, ls) == SetPhase(s, r, Run(SetStatus(e, name, to), Mutate, Nothing, {}, []))
  {
    hide After, Unhindered;
    var x := SetStatus(e, name, to);
    NeverHindered(c, s, r, x);
    var all;
    ls, all := StatementPasses(c, s, r, x, GuardStatus, Nothing, {});
    assert all == {};
  }

  lemma ChangeCommits(db: Db, e: Id, name: string, to: EventStatus, now: int)
    requires e in db.events
    ensures Exec(SetStatus(e, name, to), Obs(now, true), db) ==
              Committed(db.(events := db.events[e := db.events[e].(name := name, status := to)]))
  {
  }

  /** From every reachable state with an event of a tenant in use and nobody holding locks, a status change
      and an archival can interleave so that both succeed and the status changes after the archival. */
  lemma TransitionSurvivesArchival(c: Config, s: State, t: Id, u: Id, ctx: Ctx, e: Id, to: EventStatus, r1: nat, r2: nat)
    returns (s1: State, ls: seq<Label>)
    requires Reachable(c, s) && Unlocked(s) && r1 !in s.reqs && r2 !in s.reqs && r1 != r2
    requires OwnedTenant(s.db, t) && !s.db.tenants[t].archived && s.db.tenants[t].publicId != "" && IsOwner(s.db, t, u)
    requires SubjectOf(ctx) == Some(u) && TenantOf(ctx) == Some(s.db.tenants[t].publicId)
    requires EventOf(s.db.events, t, e) && s.db.events[e].publicId != "" && CanTransition(s.db.events[e].status, to)
    ensures Reachable(c, s1) && ChangedAfterArchival(s1, After(c, s1, ls), t, e)
    ensures var s2 := After(c, s1, ls);
            r1 in s2.reqs && r2 in s2.reqs && s2.reqs[r1].phase == Done(Success) && s2.reqs[r2].phase == Done(Success)
  {
    hide Reachable, Inv, DbOk, After, Next, Gate, Exec, SubjectOf, TenantOf, Unhindered;
    ReachableInv(c, s);
    EventHome(s.db, e);
    var was := s.db.events[e];
    var x := SetStatus(e, was.name, to);
    StatusGateOpens(c, s.clock, s.db, e, ctx, to);
    var a := Begins(c, s, r1, TransitionEventStatus(was.publicId, to), ctx, x);
    var sa := After(c, s, a);
    ReachesOn(c, s, a);
    var b := ChangeReachesUpdate(c, sa, r1, e, was.name, to);
    var sb := After(c, sa, b);
    ReachesOn(c, sa, b);
    ReachableInv(c, sb);
    var d := ArchivalOvertakes(c, sb, r1, r2, t, u, ctx, {});
    s1 := After(c, sb, d);
    ReachesOn(c, sb, d);
    ReachableInv(c, s1);
    NeverHindered(c, s1, r1, x);
    ls := TransactionCompletes(c, s1, r1, x, Mutate, Nothing, {}, [], true);
    ChangeCommits(s1.db, e, was.name, to, s1.clock);
  }

  // ---------------------------------------------------------------- a member insert

  /** The insert of r is committed and waits for its read-back. */
  predicate Inserted(s: State, r: nat, k: MemberKey) { r in s.reqs && s.reqs[r].phase == ReadBack(k) && k in s.db.members }

  lemma AddGateOpens(c: Config, clock: int, db: Db, t: Id, ctx: Ctx, v: Id, name: string)
    requires DbOk(db) && OwnedTenant(db, t) && !db.tenants[t].archived && db.tenants[t].publicId != "" && v != ""
    requires TenantOf(ctx) == Some(db.tenants[t].publicId) && ParseDisplayName(name) == Ok(name)
    ensures Gate(c, clock, AddTenantMember(db.tenants[t].publicId, v, RoleStaff, name), ctx, db) == Begin(AddMember(t, v, RoleStaff, name))
  {
    hide DbOk, SubjectOf, TenantOf, ParseDisplayName;
    TenantFound(db, t);
  }

  lemma InsertCommits(db: Db, t: Id, v: Id, name: string, o: Obs)
    requires t in db.tenants && MemberKey(t, v) !in db.members
    ensures Exec(AddMember(t, v, RoleStaff, name), o, db) ==
            Committed(db.(members := db.members[MemberKey(t, v) := Member(RoleStaff, name)]))
  {
  }

  /** Revoking a member that is no owner, as an owner. */
  lemma RevokingAlone(c: Config, now: int, db: Db, t: Id, u: Id, ctx: Ctx, v: Id)
    requires DbOk(db) && OwnedTenant(db, t) && !db.tenants[t].archived && db.tenants[t].publicId != "" && v != ""
    requires SubjectOf(ctx) == Some(u) && TenantOf(ctx) == Some(db.tenants[t].publicId) && IsOwner(db, t, u)
    requires MemberKey(t, v) in db.members && !IsOwner(db, t, v)
    ensures Alone(c, now, RevokeRole(v, db.tenants[t].publicId, ""), ctx, db) == Answer(Success, WithoutMember(db, t, v))
  {
    hide DbOk, SubjectOf, TenantOf, ParseDisplayName, WithoutMember, Owners;
    TenantFound(db, t);
    WriteScope(RoleOwner);
  }

  /** From every reachable state with a tenant in use and nobody holding locks, a member can be added and
      revoked so that both take effect, the revoke is told so, and the insert is told that there is no
      such membership. */
  lemma InsertLosesReadBack(c: Config, s: State, t: Id, u: Id, ctx: Ctx, v: Id, name: string, r1: nat, r2: nat)
    returns (s1: State, ls: seq<Label>)
    requires Reachable(c, s) && Unlocked(s) && r1 !in s.reqs && r2 !in s.reqs && r1 != r2
    requires OwnedTenant(s.db, t) && !s.db.tenants[t].archived && s.db.tenants[t].publicId != "" && IsOwner(s.db, t, u)
    requires SubjectOf(ctx) == Some(u) && TenantOf(ctx) == Some(s.db.tenants[t].publicId)
    requires v != "" && MemberKey(t, v) !in s.db.members && ParseDisplayName(name) == Ok(name)
    ensures Reachable(c, s1) && Inserted(s1, r1, MemberKey(t, v))
    ensures var s2 := After(c, s1, ls);
            r1 in s2.reqs && r2 in s2.reqs && s2.reqs[r1].phase == Done(Failure(MembershipNotFound)) &&
            s2.reqs[r2].phase == Done(Success) &&
            MemberKey(t, v) !in s2.db.members
  {
    hide Reachable, Inv, DbOk, After, Next, Gate, Exec, SubjectOf, TenantOf, Unhindered, Alone, ParseDisplayName;
    ReachableInv(c, s);
    var p, x := s.db.tenants[t].publicId, AddMember(t, v, RoleStaff, name);
    AddGateOpens(c, s.clock, s.db, t, ctx, v, name);
    var a := Begins(c, s, r1, AddTenantMember(p, v, RoleStaff, name), ctx, x);
    var sa := After(c, s, a);
    ReachesOn(c, s, a);
    ReachableInv(c, sa);
    NeverHindered(c, sa, r1, x);
    BeginIsFresh(x, sa.db, sa.clock);
    var b := TransactionEnds(c, sa, r1, x, FirstStage(x), Nothing, {}, [], ReadsOpen(x, sa.db));
    InsertCommits(sa.db, t, v, name, Obs(sa.clock, ReadsOpen(x, sa.db)));
    s1 := After(c, sa, b);
    ReachesOn(c, sa, b);
    ReachableInv(c, s1);
    RevokingAlone(c, s1.clock, s1.db, t, u, ctx, v);
    CallsComplete(c, s1, r2, RevokeRole(v, p, ""), ctx);
    var d: seq<Label> :| Extends(c, s1, After(c, s1, d), r2) && OthersStay(s1, After(c, s1, d), r2) &&
                         CompletesWith(After(c, s1, d), r2, RevokeRole(v, p, ""), ctx,
                                       Alone(c, s1.clock, RevokeRole(v, p, ""), ctx, s1.db));
    var s2 := After(c, s1, d);
    ReadBackStep(c, s2, r1);
    AfterOne(c, s2, Act(r1));
    AfterConcat(c, s1, d, [Act(r1)]);
    ls := d + [Act(r1)];
  }

  // ---------------------------------------------------------------- there is such a state

  /** What a newcomer brings: identifiers, a token, a subdomain and a name that parse. */
  datatype Newcomer = Newcomer(id: Id, publicId: Id, user: Id, token: string, subdomain: string, name: string)

  predicate Welcome(w: Newcomer) {
    w.publicId != "" && TrimSpace(w.publicId) == w.publicId && w.user != "" && TrimSpace(w.user) == w.user &&
    w.token != "" && ValidSubdomain(w.subdomain) && ValidName(w.name)
  }

  function ContextOf(w: Newcomer): Ctx { Ctx(Some(Claims(w.user, w.publicId)), None) }

  function Registration(w: Newcomer): Call { StartTenantRegistration(w.name, w.name, w.id, w.publicId, w.token) }
  function Claim(w: Newcomer): Call { ClaimTenantOwnership(w.publicId, w.token, w.subdomain, w.name) }

  function RegisteredRow(c: Config, w: Newcomer): Tenant {
    Tenant(w.publicId, w.name, w.name, PendingOwner, None, Some(c.sha(w.token)), Some(c.claimTtl), false)
  }

  lemma ContextNames(w: Newcomer)
    requires Welcome(w)
    ensures SubjectOf(ContextOf(w)) == Some(w.user) && TenantOf(ContextOf(w)) == Some(w.publicId)
    ensures w.name != "" && w.publicId != "" && ParseDisplayName(w.name) == Ok(w.name)
  {
    hide TrimSpace, ValidSubdomain;
    ParseDisplayNameRoundTrip(w.name);
  }

  lemma RegisteringAlone(c: Config, w: Newcomer)
    requires Welcome(w)
    ensures Alone(c, 0, Registration(w), ContextOf(w), EmptyDb) == Answer(Success, EmptyDb.(tenants := map[w.id := RegisteredRow(c, w)]))
  {
    hide SubjectOf, TenantOf, ParseDisplayName, ValidSubdomain, TrimSpace;
    assert Expired(EmptyDb, 0) == {} && Sweep(EmptyDb, 0) == EmptyDb;
  }

  lemma ClaimingAlone(c: Config, w: Newcomer, db: Db)
    requires Welcome(w) && c.claimTtl > 0 && db == EmptyDb.(tenants := map[w.id := RegisteredRow(c, w)])
    ensures var db' := Alone(c, 0, Claim(w), ContextOf(w), db).db;
            OwnedTenant(db', w.id) && !db'.tenants[w.id].archived && db'.tenants[w.id].publicId == w.publicId &&
            IsOwner(db', w.id, w.user) && db'.events == map[] && db'.invitations == map[] &&
            forall v :: v != w.user ==> MemberKey(w.id, v) !in db'.members
  {
    hide SubjectOf, TenantOf, ValidSubdomain, ParseDisplayName, TrimSpace;
    ContextNames(w);
    assert w.id in db.tenants && db.tenants[w.id].publicId == w.publicId;
    assert TenantByPublicId(db, w.publicId) == Some(w.id);
  }

  lemma StartIsReachable(c: Config)
    ensures Reachable(c, Init(0))
  {
    AfterNothing(c, Init(0));
    assert Init(0) == After(c, Init(0), []);
  }

  /** A newcomer registers a tenant and claims it. */
  lemma NewcomersArrive(c: Config, w: Newcomer) returns (s: State)
    requires Welcome(w) && c.claimTtl > 0
    ensures Reachable(c, s) && Unlocked(s) && s.reqs.Keys == {0, 1}
    ensures OwnedTenant(s.db, w.id) && !s.db.tenants[w.id].archived && s.db.tenants[w.id].publicId == w.publicId
    ensures IsOwner(s.db, w.id, w.user) && s.db.events == map[] && s.db.invitations == map[]
    ensures forall v :: v != w.user ==> MemberKey(w.id, v) !in s.db.members
  {
    hide Reachable, After, Alone, Welcome;
    var s0 := Init(0);
    StartIsReachable(c);
    RegisteringAlone(c, w);
    var s1 := CallCompletes(c, s0, 0, Registration(w), ContextOf(w));
    ClaimingAlone(c, w, s1.db);
    s := CallCompletes(c, s1, 1, Claim(w), ContextOf(w));
  }

  /** The newcomer creates an event. */
  lemma CreatingAlone(c: Config, now: int, db: Db, w: Newcomer, e: Id)
    requires Welcome(w) && DbOk(db) && OwnedTenant(db, w.id) && !db.tenants[w.id].archived && db.tenants[w.id].publicId == w.publicId
    requires IsOwner(db, w.id, w.user) && db.events == map[]
    ensures var row := Event(e, w.id, w.publicId, w.name, Draft);
            Alone(c, now, CreateEvent(w.publicId, w.name, e, e), ContextOf(w), db) ==
            Answer(Success, db.(events := map[e := row], eventRoles := db.eventRoles[RoleKey(e, w.user) := EventRole(w.id, RoleOwner)]))
  {
    hide DbOk, Gate, Exec, SubjectOf, TenantOf, ParseDisplayName, ValidSubdomain, TrimSpace;
    ContextNames(w);
    GatesOpen(c, now, db, w.id, w.user, ContextOf(w), w.name, e, e);
    CreationCommits(db, w.id, w.user, e, Event(e, w.id, w.publicId, w.name, Draft), now);
  }

  /** A newcomer has created an event. */
  lemma EventArrives(c: Config, w: Newcomer, e: Id) returns (s: State)
    requires Welcome(w) && c.claimTtl > 0
    ensures Reachable(c, s) && Unlocked(s) && 3 !in s.reqs && 4 !in s.reqs
    ensures OwnedTenant(s.db, w.id) && !s.db.tenants[w.id].archived && s.db.tenants[w.id].publicId == w.publicId
    ensures IsOwner(s.db, w.id, w.user) && s.db.events == map[e := Event(e, w.id, w.publicId, w.name, Draft)]
  {
    hide Reachable, After, Welcome, SubjectOf, TenantOf, Alone, DbOk, Inv;
    var s0 := NewcomersArrive(c, w);
    ReachableInv(c, s0);
    CreatingAlone(c, s0.clock, s0.db, w, e);
    s := CallCompletes(c, s0, 2, CreateEvent(w.publicId, w.name, e, e), ContextOf(w));
  }

  /** So there are runs in which an event of an archived tenant changes its status. */
  lemma ArchivedTenantsCanChangeEvents(c: Config, w: Newcomer, e: Id)
    requires Welcome(w) && c.claimTtl > 0 && e != ""
    ensures exists s: State, ls: seq<Label> :: Reachable(c, s) && ChangedAfterArchival(s, After(c, s, ls), w.id, e)
  {
    hide Reachable, After, Welcome, ChangedAfterArchival, SubjectOf, TenantOf;
    var s := EventArrives(c, w, e);
    ContextNames(w);
    var s1, ls := TransitionSurvivesArchival(c, s, w.id, w.user, ContextOf(w), e, EventStatus.Open, 3, 4);
    assert Reachable(c, s1) && ChangedAfterArchival(s1, After(c, s1, ls), w.id, e);
  }

  /** And runs in which a member insert that has been committed is answered with no such membership. */
  lemma CommittedInsertsCanFail(c: Config, w: Newcomer, v: Id)
    requires Welcome(w) && c.claimTtl > 0 && v != "" && v != w.user
    ensures exists s: State, ls: seq<Label> ::
              Reachable(c, s) && Inserted(s, 2, MemberKey(w.id, v)) && ToldNotFound(After(c, s, ls), 2)
  {
    hide Reachable, After, Welcome, SubjectOf, TenantOf, Inserted, ParseDisplayName;
    var s := NewcomersArrive(c, w);
    ContextNames(w);
    assert 2 !in s.reqs && 3 !in s.reqs;
    var s1, ls := InsertLosesReadBack(c, s, w.id, w.user, ContextOf(w), v, w.name, 2, 3);
    assert Reachable(c, s1) && Inserted(s1, 2, MemberKey(w.id, v)) && ToldNotFound(After(c, s1, ls), 2);
  }

  /** So there are runs in which an archived tenant gains an event. */
  lemma ArchivedTenantsCanGainEvents(c: Config, w: Newcomer, e: Id)
    requires Welcome(w) && c.claimTtl > 0
    ensures exists s: State, ls: seq<Label> :: Reachable(c, s) && CreatedAfterArchival(s, After(c, s, ls), w.id, e)
  {
    hide Reachable, After, Welcome, CreatedAfterArchival, SubjectOf, TenantOf;
    var s2 := NewcomersArrive(c, w);
    ContextNames(w);
    assert 2 !in s2.reqs && 3 !in s2.reqs;
    var s3, ls := CreationSurvivesArchival(c, s2, w.id, w.user, ContextOf(w), w.name, e, e, 2, 3);
    assert Reachable(c, s3) && CreatedAfterArchival(s3, After(c, s3, ls), w.id, e);
  }
}

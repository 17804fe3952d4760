/** No deadlock: a rank that strictly decreases along every wait, over the advisory, tenant,
    membership, event and invitation locks of all transactions. */
module Deadlock {
  import opened Domain
  import opened Subdomains
  import opened TenantContext
  import opened Tables
  import opened AtomicLaws
  import opened Machine
  import opened Invariant
  import opened Interference
  import opened Refinement
  import opened Schedules

  // ---------------------------------------------------------------- which locks a request may hold

  predicate Writing(st: Stage) { st == Mutate || st == CommitPoint }
  predicate Inserting(st: Stage) { st in {InsertMember, CloseInvite, MarkOwned, CommitPoint} }
  predicate Creating(st: Stage) { st in {InsertEvent, GrantCreator, CommitPoint} }

  predicate MemberRowAllowed(x: Txn, st: Stage, seen: Seen, k: MemberKey, m: Mode) {
    match m
    case Share =>
      (CallerKey(x, seen) == Some(k) && st != TakeAdvisory && st != LockTenant) ||
      (ChecksLastOwner(x) && k == MemberKey(x.tenant, x.user) && st in {KeepTarget, CountOwners, Mutate, CommitPoint})
    case KeyShare =>
      (x.GrantRole? && k == MemberKey(x.tenant, x.user) && Writing(st)) ||
      (x.NewEvent? && k == MemberKey(x.tenant, x.subject) && st in {GrantCreator, CommitPoint})
    case NoKeyUpdate => x.ChangeRole? && k == MemberKey(x.tenant, x.user) && Writing(st)
    case ForUpdate => x.RevokeMember? && k == MemberKey(x.tenant, x.user) && Writing(st)
  }

  predicate MemberSlotAllowed(x: Txn, st: Stage, seen: Seen, held: set<Lock>, k: MemberKey) {
    match x
    case AddMember(t, u, _, _) => k == MemberKey(t, u)
    case AcceptInvite(_, _, _, _, _) => k == NewMemberKey(x, seen) && Inserting(st)
    case ClaimTenant(_, _, _, _, _, _) => k == NewMemberKey(x, seen) && Inserting(st)
    case RevokeMember(t, _, u) => k == MemberKey(t, u) && Writing(st) && Lock(MemberRow(k), ForUpdate) in held
    case _ => false
  }

  predicate TenantRowAllowed(db: Db, x: Txn, st: Stage, t: Id, m: Mode) {
    match m
    case ForUpdate =>
      (x.ClaimTenant? || Administers(x)) && (st == LockTenant ==> t in db.tenants && db.tenants[t].publicId == x.publicId)
    case KeyShare =>
      ((x.AddMember? || x.Invite?) && Writing(st)) || ((x.AcceptInvite? || x.ClaimTenant?) && Inserting(st)) ||
          (x.NewEvent? && Creating(st))
    case _ => false
  }

  predicate RoleSlotAllowed(db: Db, x: Txn, st: Stage, k: RoleKey) {
    match x
    case GrantRole(_, _, e, u, _) => k == RoleKey(e, u) && Writing(st)
    case RevokeEventRole(_, _, e, u) => k == RoleKey(e, u) && Writing(st)
    case RevokeMember(t, _, _) => k.event in db.events && db.events[k.event].tenantId == t && Writing(st)
    case NewEvent(_, u, id, _) => k == RoleKey(id, u) && st in {GrantCreator, CommitPoint}
    case _ => false
  }

  predicate InviteMatches(db: Db, x: Txn, i: Id) {
    i in db.invitations &&
    match x
    case AcceptInvite(t, _, _, _, h) => db.invitations[i].tenantId == t && db.invitations[i].tokenHash == h
    case RevokeInvite(t, p) => db.invitations[i].tenantId == t && db.invitations[i].publicId == p
    case _ => false
  }

  predicate Allowed(c: Config, db: Db, x: Txn, st: Stage, seen: Seen, held: set<Lock>, h: Lock) {
    match h.target
    case AdvisoryKey(k) => Serialized(x) && k == c.hashText(x.tenant) && h.mode == ForUpdate
    case TenantRow(t) => TenantRowAllowed(db, x, st, t, h.mode)
    case SubdomainSlot(s) => x.ClaimTenant? && s == x.subdomain && st in {MarkOwned, CommitPoint} && h.mode == ForUpdate
    case MemberRow(k) => MemberRowAllowed(x, st, seen, k, h.mode)
    case MemberSlot(k) => MemberSlotAllowed(x, st, seen, held, k) && h.mode == ForUpdate
    case EventRow(e) => (x.GrantRole? && h.mode == KeyShare) || (x.SetStatus? && h.mode == NoKeyUpdate && e == x.event && Writing(st))
    case EventSlot(e) => x.NewEvent? && e == x.id && Creating(st) && h.mode == ForUpdate
    case EventPublicSlot(p) =>
      x.NewEvent? && p == x.draft.publicId && Creating(st) && h.mode == ForUpdate && Lock(EventSlot(x.id), ForUpdate) in held
    case RoleSlot(k) => RoleSlotAllowed(db, x, st, k) && h.mode == ForUpdate
    case InvitationRow(i) => (x.AcceptInvite? || x.RevokeInvite?) && st != TakeAdvisory && (st == FindInvite ==> InviteMatches(db, x, i))
                             && h.mode == ForUpdate
    case InvitationSlot(i) => x.Invite? && i == x.id && Writing(st) && h.mode == ForUpdate
    case InvitationPublicSlot(p) =>
      x.Invite? && p == x.row.publicId && Writing(st) && h.mode == ForUpdate && Lock(InvitationSlot(x.id), ForUpdate) in held
    case TokenSlot(d) =>
      x.Invite? && d == x.row.tokenHash && Writing(st) && h.mode == ForUpdate && Lock(InvitationSlot(x.id), ForUpdate) in held &&
      Lock(InvitationPublicSlot(x.row.publicId), ForUpdate) in held
  }

  predicate HeldOk(c: Config, db: Db, x: Txn, st: Stage, seen: Seen, held: set<Lock>) {
    forall h :: h in held ==> Allowed(c, db, x, st, seen, held, h)
  }

  ghost predicate ReqHeldOk(c: Config, db: Db, q: Req) {
    q.phase.Run? ==> HeldOk(c, db, q.phase.txn, q.phase.stage, q.phase.seen, q.phase.held)
  }

  ghost predicate HeldsOk(c: Config, s: State) { forall r :: r in s.reqs ==> ReqHeldOk(c, s.db, s.reqs[r]) }

  // ---------------------------------------------------------------- the bound is inductive

  lemma MutateWantsAllowed(c: Config, db: Db, x: Txn, seen: Seen, held: set<Lock>, l: Lock)
    requires DbOk(db) && ParamsOk(db, x) && l in MutateWants(x, held, db)
    ensures Allowed(c, db, x, Mutate, seen, held, l)
  {
    hide DbOk;
    if x.RevokeMember? && l.target.RoleSlot? { RoleHome(db, l.target.role); }
  }

  lemma WantsAllowed(c: Config, db: Db, x: Txn, st: Stage, seen: Seen, held: set<Lock>, pending: seq<Write>, l: Lock)
    requires DbOk(db) && ParamsOk(db, x) && StageOk(c, db, x, st, seen, held, pending) && l in Wants(c, x, st, seen, held, db)
    ensures Allowed(c, db, x, st, seen, held, l)
  {
    hide DbOk, ParamsOk, MutateWants;
    if st == Mutate { MutateWantsAllowed(c, db, x, seen, held, l); }
  }

  lemma AllowedGrows(c: Config, db: Db, x: Txn, st: Stage, seen: Seen, held: set<Lock>, l: Lock, h: Lock)
    requires Allowed(c, db, x, st, seen, held, h)
    ensures Allowed(c, db, x, st, seen, held + {l}, h)
  {
  }

  lemma TakeHeldOk(c: Config, db: Db, x: Txn, st: Stage, seen: Seen, held: set<Lock>, pending: seq<Write>, l: Lock)
    requires DbOk(db) && ParamsOk(db, x) && StageOk(c, db, x, st, seen, held, pending) && l in Wants(c, x, st, seen, held, db)
    requires HeldOk(c, db, x, st, seen, held)
    ensures HeldOk(c, db, x, st, seen, held + {l})
  {
    hide DbOk, ParamsOk, StageOk, Wants, Allowed;
    WantsAllowed(c, db, x, st, seen, held, pending, l);
    forall h | h in held + {l} ensures Allowed(c, db, x, st, seen, held + {l}, h) {
      AllowedGrows(c, db, x, st, seen, held, l, h);
    }
  }

  lemma ExecuteHeldOk(c: Config, db: Db, x: Txn, st: Stage, seen: Seen, held: set<Lock>, pending: seq<Write>, clock: int)
    requires StageOk(c, db, x, st, seen, held, pending) && HeldOk(c, db, x, st, seen, held)
    requires st != CommitPoint && Execute(x, st, seen, db, clock).Go?
    ensures var e := Execute(x, st, seen, db, clock); HeldOk(c, db, x, e.stage, e.seen, held)
  {
    var e := Execute(x, st, seen, db, clock);
    forall h | h in held ensures Allowed(c, db, x, e.stage, e.seen, held, h) {
      AllowedAdvances(c, db, x, st, seen, held, pending, clock, h);
    }
  }

  lemma AllowedAdvances(c: Config, db: Db, x: Txn, st: Stage, seen: Seen, held: set<Lock>, pending: seq<Write>,
      clock: int, h: Lock)
    requires StageOk(c, db, x, st, seen, held, pending) && Allowed(c, db, x, st, seen, held, h)
    requires st != CommitPoint && Execute(x, st, seen, db, clock).Go?
    ensures var e := Execute(x, st, seen, db, clock); Allowed(c, db, x, e.stage, e.seen, held, h)
  {
    hide InvitationByToken, InvitationByPublicId, TenantByPublicId, Owners, MayWrite, GuardedReady, HasOtherOwner,
         InvitationPublicIdTaken, TokenTaken, SubdomainTaken, EventPublicIdTaken, Require, ClaimMatches,
         InvitationOpen;
  }

  lemma AllowedStable(c: Config, db: Db, db': Db, x: Txn, st: Stage, seen: Seen, held: set<Lock>, h: Lock)
    requires Forward(db, db') && Allowed(c, db, x, st, seen, held, h)
    requires h.target.TenantRow? && h.mode == ForUpdate && h.target.tenant in db.tenants ==>
               h.target.tenant in db'.tenants && db'.tenants[h.target.tenant].publicId == db.tenants[h.target.tenant].publicId
    ensures Allowed(c, db', x, st, seen, held, h)
  {
  }

  lemma HeldOkStable(c: Config, db: Db, db': Db, x: Txn, st: Stage, seen: Seen, held: set<Lock>)
    requires Forward(db, db') && HeldOk(c, db, x, st, seen, held)
    requires forall t :: t in db.tenants && Lock(TenantRow(t), ForUpdate) in held ==>
                         t in db'.tenants && db'.tenants[t].publicId == db.tenants[t].publicId
    ensures HeldOk(c, db', x, st, seen, held)
  {
    hide Allowed, Forward;
    forall h | h in held ensures Allowed(c, db', x, st, seen, held, h) {
      assert h.target.TenantRow? && h.mode == ForUpdate ==> h == Lock(TenantRow(h.target.tenant), ForUpdate);
      AllowedStable(c, db, db', x, st, seen, held, h);
    }
  }

  /** Tenants that other requests have locked for update keep their row through a step. */
  ghost predicate LockedTenantsStay(s: State, db': Db, id: nat) {
    forall r, t :: r in s.reqs && r != id && t in s.db.tenants && Lock(TenantRow(t), ForUpdate) in Held(s.reqs[r]) ==>
                     t in db'.tenants && db'.tenants[t].publicId == s.db.tenants[t].publicId
  }

  lemma OthersHeldOk(c: Config, s: State, db': Db, id: nat)
    requires HeldsOk(c, s) && Forward(s.db, db') && LockedTenantsStay(s, db', id)
    ensures forall r :: r in s.reqs && r != id ==> ReqHeldOk(c, db', s.reqs[r])
  {
    hide HeldOk, Forward;
    forall r | r in s.reqs && r != id ensures ReqHeldOk(c, db', s.reqs[r]) {
      var q := s.reqs[r];
      assert ReqHeldOk(c, s.db, q);
      if q.phase.Run? { HeldOkStable(c, s.db, db', q.phase.txn, q.phase.stage, q.phase.seen, q.phase.held); }
    }
  }

  lemma CommitTenantsStay(c: Config, s: State, id: nat, x: Txn, seen: Seen, held: set<Lock>, pending: seq<Write>)
    requires Inv(c, s) && id in s.reqs && s.reqs[id].phase == Run(x, CommitPoint, seen, held, pending)
    ensures LockedTenantsStay(s, ApplyAll(pending, s.db), id)
  {
    hide DbOk, StageOk, ParamsOk;
    assert ReqOk(c, s.db, s.reqs[id]);
    CommitCovered(c, s.db, x, seen, held, pending);
    forall r, t | r in s.reqs && r != id && t in s.db.tenants && Lock(TenantRow(t), ForUpdate) in Held(s.reqs[r])
      ensures var db' := ApplyAll(pending, s.db); t in db'.tenants && db'.tenants[t].publicId == s.db.tenants[t].publicId
    {
      assert Compatible(Held(s.reqs[id]), Held(s.reqs[r]));
      assert Clash(Lock(TenantRow(t), ForUpdate), Lock(TenantRow(t), ForUpdate));
    }
  }

  lemma RunKeepsHeldsOk(c: Config, s: State, id: nat)
    requires Inv(c, s) && HeldsOk(c, s) && id in s.reqs && s.reqs[id].phase.Run?
    ensures HeldsOk(c, ActRun(c, s, id))
  {
    hide DbOk, StageOk, ParamsOk, Execute, Wants, HeldOk, Forward, Apply;
    var Run(x, st, seen, held, pending) := s.reqs[id].phase;
    assert ReqOk(c, s.db, s.reqs[id]);
    assert ReqHeldOk(c, s.db, s.reqs[id]);
    if Wants(c, x, st, seen, held, s.db) == {} {
      if st == CommitPoint {
        CommitKeepsInv(c, s, id, x, seen, held, pending);
        CommitTenantsStay(c, s, id, x, seen, held, pending);
        OthersHeldOk(c, s, ApplyAll(pending, s.db), id);
      } else if Execute(x, st, seen, s.db, s.clock).Go? {
        ExecuteHeldOk(c, s.db, x, st, seen, held, pending, s.clock);
      }
    }
  }

  lemma NothingHeld(c: Config, db: Db, q: Req)
    requires Held(q) == {}
    ensures ReqHeldOk(c, db, q)
  {
  }

  lemma ActKeepsHeldsOk(c: Config, s: State, id: nat)
    requires Inv(c, s) && HeldsOk(c, s) && id in s.reqs
    ensures HeldsOk(c, ActStep(c, s, id))
  {
    hide Inv, Gate, GateEventTenant, HeldOk, Forward, ActRun, Sweep, NewTenantRow;
    if s.reqs[id].phase.Run? {
      RunKeepsHeldsOk(c, s, id);
    } else {
      var s' := ActStep(c, s, id);
      ActKeepsInv(c, s, id);
      assert LockedTenantsStay(s, s'.db, id) by {
        if s.reqs[id].phase.Sweeping? && s'.db != s.db { SweepTenantsStay(s, id, s.reqs[id].phase.now); }
      }
      OthersHeldOk(c, s, s'.db, id);
      forall r | r in s'.reqs ensures ReqHeldOk(c, s'.db, s'.reqs[r]) {
        if r == id { NothingHeld(c, s'.db, s'.reqs[r]); }
      }
    }
  }

  lemma SweepTenantsStay(s: State, id: nat, now: int)
    requires SweepFree(s, now)
    ensures LockedTenantsStay(s, Sweep(s.db, now), id)
  {
    forall r, t | r in s.reqs && r != id && t in s.db.tenants && Lock(TenantRow(t), ForUpdate) in Held(s.reqs[r])
      ensures t in Sweep(s.db, now).tenants
    {
      assert Lock(TenantRow(t), ForUpdate).target.TenantRow?;
    }
  }

  lemma NextKeepsHeldsOk(c: Config, s: State, l: Label)
    requires Inv(c, s) && HeldsOk(c, s)
    ensures HeldsOk(c, Next(c, s, l))
  {
    hide DbOk, StageOk, ParamsOk, HeldOk, ActStep, Wants;
    match l
    case Arrive(_, _, _) =>
    case Tick(_) =>
    case Take(id, lock) =>
      if id in s.reqs && s.reqs[id].phase.Run? {
        var Run(x, st, seen, held, pending) := s.reqs[id].phase;
        if lock in Wants(c, x, st, seen, held, s.db) {
          assert ReqOk(c, s.db, s.reqs[id]) && ReqHeldOk(c, s.db, s.reqs[id]);
          TakeHeldOk(c, s.db, x, st, seen, held, pending, lock);
        }
      }
    case Act(id) => if id in s.reqs { ActKeepsHeldsOk(c, s, id); }
    case Abort(_) =>
  }

  lemma {:induction false} ScheduleHeldsOk(c: Config, s: State, ls: seq<Label>)
    requires Inv(c, s) && HeldsOk(c, s)
    ensures Inv(c, After(c, s, ls)) && HeldsOk(c, After(c, s, ls))
    decreases |ls|
  {
    hide Inv, HeldsOk, Next;
    if ls != [] {
      NextKeepsInv(c, s, ls[0]);
      NextKeepsHeldsOk(c, s, ls[0]);
      ScheduleHeldsOk(c, Next(c, s, ls[0]), ls[1..]);
    }
  }

  // ---------------------------------------------------------------- the rank

  function LockRank(x: Txn, l: Lock): nat {
    match l.target
    case AdvisoryKey(_) => 9
    case InvitationRow(_) => 8
    case TenantRow(_) => if l.mode == ForUpdate then 8 else if x.ClaimTenant? then 1 else 4
    case MemberRow(_) => (match l.mode case Share => 3 case KeyShare => 1 case _ => 7)
    case MemberSlot(_) => if x.AddMember? || x.AcceptInvite? then 7 else 2
    case InvitationSlot(_) => 7
    case InvitationPublicSlot(_) => 6
    case TokenSlot(_) => 5
    case EventSlot(_) => 6
    case EventPublicSlot(_) => 5
    case _ => 1
  }

  /** A request that asks for no lock has rank zero; any other, the rank of the lock it asks for. */
  ghost function Rank(c: Config, s: State, r: nat): nat {
    if r in s.reqs && s.reqs[r].phase.Run? then
      var Run(x, st, seen, held, _) := s.reqs[r].phase;
      RankOf(x, Wants(c, x, st, seen, held, s.db))
    else 0
  }

  ghost function RankOf(x: Txn, wants: set<Lock>): nat {
    if l :| l in wants then LockRank(x, l) else 0
  }

  /** All the locks a request asks for at once have the same rank. */
  lemma WantsOneRank(c: Config, db: Db, x: Txn, st: Stage, seen: Seen, held: set<Lock>, l: Lock)
    requires l in Wants(c, x, st, seen, held, db)
    ensures RankOf(x, Wants(c, x, st, seen, held, db)) == LockRank(x, l)
  {
  }

  /** a asks for a lock that b's locks exclude. */
  ghost predicate WaitsFor(c: Config, s: State, a: nat, b: nat) {
    a in s.reqs && b in s.reqs && a != b && s.reqs[a].phase.Run? &&
    var Run(x, st, seen, held, _) := s.reqs[a].phase;
    exists l, h :: l in Wants(c, x, st, seen, held, s.db) && h in Held(s.reqs[b]) && Clash(h, l)
  }

  /** A running transaction, seen from outside. */
  datatype View = View(x: Txn, st: Stage, seen: Seen, held: set<Lock>, pending: seq<Write>)

  ghost predicate Sound(c: Config, db: Db, v: View) {
    ParamsOk(db, v.x) && StageOk(c, db, v.x, v.st, v.seen, v.held, v.pending) && HeldOk(c, db, v.x, v.st, v.seen, v.held)
  }

  ghost function WantsOf(c: Config, db: Db, v: View): set<Lock> { Wants(c, v.x, v.st, v.seen, v.held, db) }

  /** a asks for l, and b holds a clashing h. */
  ghost predicate Edge(c: Config, db: Db, a: View, b: View, l: Lock, h: Lock) {
    DbOk(db) && Sound(c, db, a) && Sound(c, db, b) && Compatible(a.held, b.held) &&
    l in WantsOf(c, db, a) && h in b.held && Clash(h, l)
  }

  // What a holder may still ask for.

  /** The highest rank a request holding h may still ask for. */
  function Ceiling(db: Db, x: Txn, h: Lock): nat {
    match h.target
    case AdvisoryKey(_) => 8
    case InvitationRow(_) => 7
    case TenantRow(_) => if h.mode == ForUpdate then 3 else 7
    case MemberRow(_) => (match h.mode case NoKeyUpdate => 2 case ForUpdate => 2 case _ => if Guarded(x) then 7 else 6)
    case MemberSlot(k) => if !(x.AddMember? || x.AcceptInvite?) then 1 else if k in db.members then 0 else 4
    case InvitationSlot(_) => 6
    case InvitationPublicSlot(_) => 5
    case TokenSlot(_) => 4
    case EventSlot(_) => 5
    case EventPublicSlot(_) => 4
    case SubdomainSlot(_) => 0
    case EventRow(_) => if x.SetStatus? then 0 else 9
    case RoleSlot(_) => 9
  }

  /** Every lock that b asks for ranks no higher than n. */
  ghost predicate AtMost(c: Config, db: Db, b: View, n: nat) {
    forall w :: w in WantsOf(c, db, b) ==> LockRank(b.x, w) <= n
  }

  ghost predicate Holds(c: Config, db: Db, b: View, h: Lock) {
    DbOk(db) && Sound(c, db, b) && h in b.held
  }

  lemma CeilingAdvisory(c: Config, db: Db, b: View, h: Lock)
    requires Holds(c, db, b, h) && (h.target.AdvisoryKey? || h.target.RoleSlot? || h.target.EventRow?)
    ensures AtMost(c, db, b, Ceiling(db, b.x, h))
  {
    hide DbOk, ParamsOk, StageOk;
    assert Allowed(c, db, b.x, b.st, b.seen, b.held, h);
  }

  lemma CeilingTenant(c: Config, db: Db, b: View, h: Lock)
    requires Holds(c, db, b, h) && (h.target.TenantRow? || h.target.SubdomainSlot?)
    ensures AtMost(c, db, b, Ceiling(db, b.x, h))
  {
    hide DbOk, ParamsOk, GuardedReady, HasOtherOwner, SubdomainTaken, TokenTaken, EventPublicIdTaken,
         InvitationPublicIdTaken, MayWrite, ClaimMatches, InvitationOpen;
    assert Allowed(c, db, b.x, b.st, b.seen, b.held, h);
    if h.target.TenantRow? && b.st == LockTenant { TenantFound(db, h.target.tenant); }
  }

  lemma CeilingMember(c: Config, db: Db, b: View, h: Lock)
    requires Holds(c, db, b, h) && (h.target.MemberRow? || h.target.MemberSlot?)
    ensures AtMost(c, db, b, Ceiling(db, b.x, h))
  {
    hide DbOk, ParamsOk, GuardedReady, HasOtherOwner, SubdomainTaken, TokenTaken, EventPublicIdTaken,
         InvitationPublicIdTaken, MayWrite, ClaimMatches, InvitationOpen;
    assert Allowed(c, db, b.x, b.st, b.seen, b.held, h);
  }

  lemma CeilingEvent(c: Config, db: Db, b: View, h: Lock)
    requires Holds(c, db, b, h) && (h.target.EventSlot? || h.target.EventPublicSlot?)
    ensures AtMost(c, db, b, Ceiling(db, b.x, h))
  {
    hide DbOk, ParamsOk, GuardedReady, HasOtherOwner, SubdomainTaken, TokenTaken, EventPublicIdTaken,
         InvitationPublicIdTaken, MayWrite, ClaimMatches, InvitationOpen;
    assert Allowed(c, db, b.x, b.st, b.seen, b.held, h);
  }

  lemma CeilingInvitation(c: Config, db: Db, b: View, h: Lock)
    requires Holds(c, db, b, h)
    requires h.target.InvitationRow? || h.target.InvitationSlot? || h.target.InvitationPublicSlot? || h.target.TokenSlot?
    ensures AtMost(c, db, b, Ceiling(db, b.x, h))
  {
    hide DbOk, ParamsOk, GuardedReady, HasOtherOwner, SubdomainTaken, TokenTaken, EventPublicIdTaken,
         InvitationPublicIdTaken, MayWrite, ClaimMatches, InvitationOpen;
    assert Allowed(c, db, b.x, b.st, b.seen, b.held, h);
    if h.target.InvitationRow? && b.st == FindInvite { InvitationFound(db, h.target.invitation); }
  }

  lemma CeilingHolds(c: Config, db: Db, b: View, h: Lock)
    requires Holds(c, db, b, h)
    ensures AtMost(c, db, b, Ceiling(db, b.x, h))
  {
    hide DbOk, Sound, Ceiling, AtMost;
    match h.target
    case TenantRow(_) => CeilingTenant(c, db, b, h);
    case SubdomainSlot(_) => CeilingTenant(c, db, b, h);
    case MemberRow(_) => CeilingMember(c, db, b, h);
    case MemberSlot(_) => CeilingMember(c, db, b, h);
    case EventSlot(_) => CeilingEvent(c, db, b, h);
    case EventPublicSlot(_) => CeilingEvent(c, db, b, h);
    case InvitationRow(_) => CeilingInvitation(c, db, b, h);
    case InvitationSlot(_) => CeilingInvitation(c, db, b, h);
    case InvitationPublicSlot(_) => CeilingInvitation(c, db, b, h);
    case TokenSlot(_) => CeilingInvitation(c, db, b, h);
    case _ => CeilingAdvisory(c, db, b, h);
  }

  // Which clashes cannot arise.

  lemma Excludes(mine: set<Lock>, theirs: set<Lock>, l: Lock, h: Lock)
    requires Compatible(mine, theirs)
    ensures !(l in mine && h in theirs && Clash(l, h))
  {
  }

  /** Two transactions past the advisory lock of the same tenant are not both running. */
  lemma AdvisoryExcludes(c: Config, db: Db, a: View, b: View)
    requires StageOk(c, db, a.x, a.st, a.seen, a.held, a.pending) && StageOk(c, db, b.x, b.st, b.seen, b.held, b.pending)
    requires Compatible(a.held, b.held) && Serialized(a.x) && Serialized(b.x) && a.x.tenant == b.x.tenant
    ensures a.st == TakeAdvisory || b.st == TakeAdvisory
  {
  }

  /** A clash on a membership row. */
  lemma RowClash(c: Config, db: Db, a: View, b: View, l: Lock, h: Lock)
    requires Edge(c, db, a, b, l, h) && l.target.MemberRow?
    requires Allowed(c, db, a.x, a.st, a.seen, a.held, l) && Allowed(c, db, b.x, b.st, b.seen, b.held, h)
    ensures Ceiling(db, b.x, h) < LockRank(a.x, l)
  {
    hide DbOk, Wants, ParamsOk, HeldOk;
    if Serialized(a.x) && Serialized(b.x) && a.x.tenant == b.x.tenant { AdvisoryExcludes(c, db, a, b); }
    Excludes(a.held, b.held, Lock(MemberRow(l.target.member), Share), h);
  }

  /** A claim's tenant is pending, everybody else's is owned. */
  lemma SlotClash(c: Config, db: Db, a: View, b: View, l: Lock, h: Lock)
    requires Edge(c, db, a, b, l, h) && l.target.MemberSlot?
    requires Allowed(c, db, a.x, a.st, a.seen, a.held, l) && Allowed(c, db, b.x, b.st, b.seen, b.held, h)
    ensures Ceiling(db, b.x, h) < LockRank(a.x, l)
  {
    hide DbOk, HeldOk, Allowed;
    assert MemberSlotAllowed(a.x, a.st, a.seen, a.held, l.target.member) by { hide Wants, StageOk; AllowedSlot(c, db, a, l); }
    assert MemberSlotAllowed(b.x, b.st, b.seen, b.held, h.target.member) by { hide Wants, StageOk; AllowedSlot(c, db, b, h); }
  }

  lemma AllowedSlot(c: Config, db: Db, v: View, l: Lock)
    requires Allowed(c, db, v.x, v.st, v.seen, v.held, l) && l.target.MemberSlot?
    ensures MemberSlotAllowed(v.x, v.st, v.seen, v.held, l.target.member)
  {
  }

  /** A clash on a role slot cannot arise: the roles of one tenant's events are touched under its
      advisory lock, or belong to an event that is not committed yet. */
  lemma NoRoleClash(c: Config, db: Db, a: View, b: View, l: Lock, h: Lock)
    requires Edge(c, db, a, b, l, h)
    requires Allowed(c, db, a.x, a.st, a.seen, a.held, l) && Allowed(c, db, b.x, b.st, b.seen, b.held, h)
    ensures !l.target.RoleSlot?
  {
    hide DbOk, Wants, HeldOk;
    if Serialized(a.x) && Serialized(b.x) && a.x.tenant == b.x.tenant { AdvisoryExcludes(c, db, a, b); }
    if a.x.NewEvent? { Excludes(a.held, b.held, Lock(EventSlot(a.x.id), ForUpdate), Lock(EventSlot(a.x.id), ForUpdate)); }
  }

  lemma TenantClash(c: Config, db: Db, a: View, b: View, l: Lock, h: Lock)
    requires Edge(c, db, a, b, l, h) && l.target.TenantRow?
    requires Allowed(c, db, a.x, a.st, a.seen, a.held, l) && Allowed(c, db, b.x, b.st, b.seen, b.held, h)
    ensures Ceiling(db, b.x, h) < LockRank(a.x, l)
  {
    hide DbOk, HeldOk, ParamsOk;
    if a.seen.SawTenant? { Excludes(a.held, b.held, Lock(TenantRow(a.seen.tenantId), ForUpdate), h); }
  }

  lemma OtherClash(c: Config, db: Db, a: View, b: View, l: Lock, h: Lock)
    requires Edge(c, db, a, b, l, h)
    requires !l.target.TenantRow? && !l.target.RoleSlot? && !l.target.MemberRow? && !l.target.MemberSlot?
    requires Allowed(c, db, a.x, a.st, a.seen, a.held, l) && Allowed(c, db, b.x, b.st, b.seen, b.held, h)
    ensures Ceiling(db, b.x, h) < LockRank(a.x, l)
  {
    hide DbOk, HeldOk, ParamsOk, StageOk, Wants;
  }

  /** Along every wait, what the holder may still ask for ranks below what is waited for. */
  lemma ClashRanks(c: Config, db: Db, a: View, b: View, l: Lock, h: Lock)
    requires Edge(c, db, a, b, l, h)
    ensures Ceiling(db, b.x, h) < LockRank(a.x, l)
  {
    WantsAllowed(c, db, a.x, a.st, a.seen, a.held, a.pending, l);
    hide DbOk, ParamsOk, StageOk, Wants, Allowed;
    assert Allowed(c, db, b.x, b.st, b.seen, b.held, h);
    NoRoleClash(c, db, a, b, l, h);
    if l.target.TenantRow? { TenantClash(c, db, a, b, l, h); }
    else if l.target.MemberRow? { RowClash(c, db, a, b, l, h); }
    else if l.target.MemberSlot? { SlotClash(c, db, a, b, l, h); }
    else { OtherClash(c, db, a, b, l, h); }
  }

  ghost function ViewOf(q: Req): View
    requires q.phase.Run?
  {
    View(q.phase.txn, q.phase.stage, q.phase.seen, q.phase.held, q.phase.pending)
  }

  /** The rank strictly decreases along every wait. */
  lemma WaitsDescend(c: Config, s: State, a: nat, b: nat)
    requires Inv(c, s) && HeldsOk(c, s) && WaitsFor(c, s, a, b)
    ensures Rank(c, s, b) < Rank(c, s, a)
  {
    hide DbOk, ParamsOk, StageOk, HeldOk, Wants, LockRank, Ceiling;
    var va, vb := ViewOf(s.reqs[a]), ViewOf(s.reqs[b]);
    var l, h :| l in WantsOf(c, s.db, va) && h in Held(s.reqs[b]) && Clash(h, l);
    assert ReqOk(c, s.db, s.reqs[a]) && ReqOk(c, s.db, s.reqs[b]);
    assert ReqHeldOk(c, s.db, s.reqs[a]) && ReqHeldOk(c, s.db, s.reqs[b]);
    assert Compatible(Held(s.reqs[a]), Held(s.reqs[b]));
    ClashRanks(c, s.db, va, vb, l, h);
    CeilingHolds(c, s.db, vb, h);
    WantsOneRank(c, s.db, va.x, va.st, va.seen, va.held, l);
    if w :| w in WantsOf(c, s.db, vb) { WantsOneRank(c, s.db, vb.x, vb.st, vb.seen, vb.held, w); }
  }

  /** Each request of the list waits for the next one. */
  ghost predicate WaitChain(c: Config, s: State, rs: seq<nat>) {
    forall i :: 0 <= i < |rs| - 1 ==> WaitsFor(c, s, rs[i], rs[i + 1])
  }

  lemma {:induction false} ChainDescends(c: Config, s: State, rs: seq<nat>)
    requires Inv(c, s) && HeldsOk(c, s) && |rs| >= 2 && WaitChain(c, s, rs)
    ensures Rank(c, s, rs[|rs| - 1]) < Rank(c, s, rs[0])
  {
    hide Inv, HeldsOk, WaitsFor, Rank;
    assert WaitsFor(c, s, rs[0], rs[0 + 1]);
    WaitsDescend(c, s, rs[0], rs[1]);
    if |rs| > 2 {
      var tail := rs[1..];
      forall i | 0 <= i < |tail| - 1 ensures WaitsFor(c, s, tail[i], tail[i + 1]) {
        assert WaitsFor(c, s, rs[i + 1], rs[(i + 1) + 1]);
      }
      ChainDescends(c, s, tail);
    }
  }

  /** In no reachable state do requests wait for each other in a cycle. */
  lemma NoDeadlock(c: Config, clock: int, ls: seq<Label>, rs: seq<nat>)
    requires |rs| >= 2 && WaitChain(c, After(c, Init(clock), ls), rs)
    ensures rs[0] != rs[|rs| - 1]
  {
    hide Inv, HeldsOk, WaitChain, Rank;
    InitInv(c, clock);
    InitHeldsOk(c, clock);
    ScheduleHeldsOk(c, Init(clock), ls);
    ChainDescends(c, After(c, Init(clock), ls), rs);
  }

  lemma InitHeldsOk(c: Config, clock: int)
    ensures HeldsOk(c, Init(clock))
  {
  }

  predicate Running(s: State, r: nat) { r in s.reqs && s.reqs[r].phase.Run? }

  /** While any transaction is running, some running transaction waits for nobody: it is granted a
      lock it asks for, or it executes its next statement. */
  lemma Progress(c: Config, s: State, r: nat)
    requires Inv(c, s) && HeldsOk(c, s) && Running(s, r)
    ensures exists a :: Running(s, a) && forall b :: !WaitsFor(c, s, a, b)
    decreases Rank(c, s, r)
  {
    hide Inv, HeldsOk, Rank, Wants, Clash;
    if b :| WaitsFor(c, s, r, b) {
      WaitsDescend(c, s, r, b);
      Progress(c, s, b);
    }
  }
}

/** The life of a tenant up to its claim, over every run: registration, the sweep and the claim. */
module ClaimHistory {
  import opened Domain
  import opened Subdomains
  import opened Tables
  import opened AtomicLaws
  import opened Machine
  import opened Invariant
  import opened Interference
  import opened Refinement
  import opened Schedules
  import opened Histories

  // ---------------------------------------------------------------- when a claim succeeds

  /** What the caller of a claim can check: a known tenant, no other tenant's context, a live
      matching token, a free subdomain. */
  ghost predicate Claimable(db: Db, x: Txn, now: int)
    requires x.ClaimTenant?
  {
    var found := TenantByPublicId(db, x.publicId);
    found.Some? && (x.boundTenant.None? || x.boundTenant.value == x.publicId) &&
    ClaimMatches(db.tenants[found.value], x.token, now) && !SubdomainTaken(db, x.subdomain)
  }

  /** A claim succeeds exactly then; in particular no membership can stand in its way. */
  lemma ClaimSucceedsIff(x: Txn, o: Obs, db: Db)
    requires x.ClaimTenant? && DbOk(db)
    ensures Exec(x, o, db).Committed? <==> Claimable(db, x, o.now)
  {
    hide DbOk;
    var found := TenantByPublicId(db, x.publicId);
    if found.Some? && MemberKey(found.value, x.subject) in db.members { MemberHome(db, MemberKey(found.value, x.subject)); }
  }

  /** The owner row, the owned state, the subdomain and the consumption of the token appear
      together, and nothing else changes. */
  lemma ClaimEffect(x: Txn, o: Obs, db: Db)
    requires x.ClaimTenant? && DbOk(db) && Exec(x, o, db).Committed?
    ensures TenantByPublicId(db, x.publicId).Some?
    ensures var t := TenantByPublicId(db, x.publicId).value;
            var row, k := db.tenants[t], MemberKey(t, x.subject);
            ClaimMatches(row, x.token, o.now) && k !in db.members && !SubdomainTaken(db, x.subdomain) &&
            Exec(x, o, db).db == db.(members := db.members[k := Member(RoleOwner, x.name)],
                                     tenants := db.tenants[t := Tenant(row.publicId, row.name, row.plan, Owned,
                                         Some(x.subdomain), None, None, row.archived)])
  {
    hide DbOk;
  }

  // ---------------------------------------------------------------- claimed at most once

  /** The claim of tenant t that a step commits. */
  ghost predicate ClaimsTenant(c: Config, s: State, l: Label, t: Id) {
    var ch := StepOf(c, s, l);
    ch.Commits? && ch.txn.ClaimTenant? && TenantByPublicId(s.db, ch.txn.publicId) == Some(t)
  }

  lemma OwnedBy(x: Txn, o: Obs, db: Db, t: Id)
    requires DbOk(db) && ParamsOk(db, x) && Exec(x, o, db).Committed?
    ensures !OwnedTenant(db, t) ==>
              (OwnedTenant(Exec(x, o, db).db, t) <==> x.ClaimTenant? && TenantByPublicId(db, x.publicId) == Some(t))
    ensures x.ClaimTenant? && TenantByPublicId(db, x.publicId) == Some(t) ==> !OwnedTenant(db, t)
  {
    hide DbOk, InvitationByToken, InvitationByPublicId;
  }

  /** A tenant becomes owned exactly by the commit of a claim of it, and an owned one is never
      claimed again. */
  lemma OwnershipStep(c: Config, s: State, l: Label, t: Id)
    requires Inv(c, s)
    ensures OwnedTenant(s.db, t) ==> OwnedTenant(Next(c, s, l).db, t) && !ClaimsTenant(c, s, l, t)
    ensures !OwnedTenant(s.db, t) ==> (OwnedTenant(Next(c, s, l).db, t) <==> ClaimsTenant(c, s, l, t))
  {
    hide DbOk, LocksOk, ReqsOk, Next, Point, Exec, ExecRegister, Sweep, ParamsOk, PendingRow;
    StepCommits(c, s, l);
    NextKeepsInv(c, s, l);
    match StepOf(c, s, l)
    case Quiet =>
    case Commits(_, x, o) => OwnedBy(x, o, s.db, t);
    case Sweeps(now) => SweepExact(s.db, now);
    case Registers(id, row) => RegisterOwned(s.db, id, row, t);
  }

  lemma RegisterOwned(db: Db, id: Id, row: Tenant, t: Id)
    requires PendingRow(row) && ExecRegister(db, id, row).Committed?
    ensures OwnedTenant(ExecRegister(db, id, row).db, t) <==> OwnedTenant(db, t)
  {
  }

  ghost function ClaimCount(c: Config, s: State, ls: seq<Label>, t: Id): nat
    decreases |ls|
  {
    if ls == [] then 0 else (if ClaimsTenant(c, s, ls[0], t) then 1 else 0) + ClaimCount(c, Next(c, s, ls[0]), ls[1..], t)
  }

  /** Over every run a tenant is claimed at most once: once if it ends up owned, and never if it
      does not or was owned already. */
  lemma {:induction false} ClaimedAtMostOnce(c: Config, s: State, ls: seq<Label>, t: Id)
    requires Inv(c, s)
    ensures ClaimCount(c, s, ls, t) == (if OwnedTenant(After(c, s, ls).db, t) then 1 else 0) - (if OwnedTenant(s.db, t) then 1 else 0)
    decreases |ls|
  {
    hide Inv, Next, ClaimsTenant, OwnedTenant;
    if ls != [] {
      NextKeepsInv(c, s, ls[0]);
      OwnershipStep(c, s, ls[0], t);
      ClaimedAtMostOnce(c, Next(c, s, ls[0]), ls[1..], t);
    }
  }

  // ---------------------------------------------------------------- the token stays good

  predicate PendingTenant(db: Db,
      t: Id) { t in db.tenants && db.tenants[t].ownership == PendingOwner && db.tenants[t].expiresAt.Some? }

  /** Claimed since, under the same public ID. */
  predicate ClaimedSince(was: Tenant,
      row: Tenant) { row.ownership == Owned && row.publicId == was.publicId && row.name == was.name }

  lemma PendingRowWrites(x: Txn, o: Obs, db: Db, t: Id)
    requires DbOk(db) && ParamsOk(db, x) && Exec(x, o, db).Committed? && PendingTenant(db, t)
    ensures t in Exec(x, o, db).db.tenants
    ensures var was, row := db.tenants[t], Exec(x, o, db).db.tenants[t]; row == was || ClaimedSince(was, row)
  {
    hide DbOk, InvitationByToken, InvitationByPublicId;
  }

  lemma PendingStep(c: Config, s: State, l: Label, t: Id)
    requires Inv(c, s) && TimesOk(s) && PendingTenant(s.db, t) && !ClaimExpired(s.db.tenants[t].expiresAt.value, s.clock)
    ensures t in Next(c, s, l).db.tenants
    ensures var was, row := s.db.tenants[t], Next(c, s, l).db.tenants[t]; row == was || ClaimedSince(was, row)
  {
    hide DbOk, LocksOk, ReqsOk, Next, Point, Exec, ExecRegister, Sweep, ParamsOk, PendingRow;
    PointIs(c, s, l);
    StepCommits(c, s, l);
    match StepOf(c, s, l)
    case Quiet =>
    case Commits(_, x, o) => PendingRowWrites(x, o, s.db, t);
    case Sweeps(now) => SweepExact(s.db, now);
    case Registers(id, row) => RegisterRow(s.db, id, row, t);
  }

  /** Until its claim expires, a registered tenant stays as it is, token and all, or is claimed:
      failed claims, sweeps and every other request leave it alone. */
  lemma {:induction false} PendingTenantsWait(c: Config, s: State, ls: seq<Label>, t: Id)
    requires Inv(c, s) && TimesOk(s) && PendingTenant(s.db, t)
    requires !ClaimExpired(s.db.tenants[t].expiresAt.value, After(c, s, ls).clock)
    ensures t in After(c, s, ls).db.tenants
    ensures var was, row := s.db.tenants[t], After(c, s, ls).db.tenants[t]; row == was || ClaimedSince(was, row)
    decreases |ls|
  {
    hide Inv, Next, TimesOk;
    if ls != [] {
      var s1 := Next(c, s, ls[0]);
      ScheduleKeepsTimes(c, s, ls);
      NextKeepsTimes(c, s, ls[0]);
      PendingStep(c, s, ls[0], t);
      NextKeepsInv(c, s, ls[0]);
      if s1.db.tenants[t] == s.db.tenants[t] {
        PendingTenantsWait(c, s1, ls[1..], t);
      } else {
        ScheduleKeepsInv(c, s1, ls[1..]);
        assert OwnedIn(s1.db.tenants, t);
      }
    }
  }

  /** So whatever ran in between, a live token still claims its tenant with a free subdomain, unless
      it has claimed it already. */
  lemma LiveTokenStillClaims(c: Config, s: State, ls: seq<Label>, t: Id, x: Txn, open: bool)
    requires Inv(c, s) && TimesOk(s) && PendingTenant(s.db, t) && x.ClaimTenant?
    requires x.publicId == s.db.tenants[t].publicId && (x.boundTenant.None? || x.boundTenant.value == x.publicId)
    requires ClaimMatches(s.db.tenants[t], x.token, After(c, s, ls).clock)
    requires !OwnedTenant(After(c, s, ls).db, t) && !SubdomainTaken(After(c, s, ls).db, x.subdomain)
    ensures Exec(x, Obs(After(c, s, ls).clock, open), After(c, s, ls).db).Committed?
  {
    hide Inv, DbOk, Exec, TimesOk;
    var s' := After(c, s, ls);
    PendingTenantsWait(c, s, ls, t);
    ScheduleKeepsInv(c, s, ls);
    InvDb(c, s');
    TenantFound(s'.db, t);
    ClaimSucceedsIff(x, Obs(s'.clock, open), s'.db);
  }

  // ---------------------------------------------------------------- the sweep

  /** A sweep removes exactly the pending tenants whose claim had expired when the sweep read the clock,
      which a claim at this moment would refuse too; none that a request has locked; and no row of any
      other table. */
  lemma SweepStep(c: Config, s: State, l: Label, t: Id)
    requires Reachable(c, s) && StepOf(c, s, l).Sweeps? && t in s.db.tenants
    ensures var db', now := Next(c, s, l).db, StepOf(c, s, l).now;
            now <= s.clock &&
            (t !in db'.tenants <==> PendingTenant(s.db, t) && ClaimExpired(s.db.tenants[t].expiresAt.value, now)) &&
            (t !in db'.tenants ==> t in Expired(s.db, s.clock)) &&
            (t in db'.tenants ==> db'.tenants[t] == s.db.tenants[t]) &&
            db' == s.db.(tenants := db'.tenants)
    ensures t !in Next(c, s, l).db.tenants ==>
              forall r :: r in s.reqs ==> Lock(TenantRow(t), ForUpdate) !in Held(s.reqs[r])
  {
    hide Reachable, DbOk, LocksOk, ReqsOk, Next, Sweep, Point;
    ReachableInv(c, s);
    ReachableTimes(c, s);
    PointIs(c, s, l);
    StepCommits(c, s, l);
    var now := StepOf(c, s, l).now;
    SweepExact(s.db, now);
    SweepExact(s.db, s.clock);
    TenantHome(s.db, t);
    forall r | r in s.reqs && Lock(TenantRow(t), ForUpdate) in Held(s.reqs[r]) ensures t !in Expired(s.db, now) {
      assert Lock(TenantRow(t), ForUpdate).target.TenantRow?;
    }
  }

  /** An expired tenant and a claim of it: the sweep takes it, the claim is refused. */
  lemma ExpiredIsRefused(x: Txn, o: Obs, db: Db, t: Id)
    requires DbOk(db) && x.ClaimTenant? && t in Expired(db, o.now) && x.publicId == db.tenants[t].publicId
    requires x.boundTenant.None? || x.boundTenant.value == x.publicId
    ensures Exec(x, o, db) == Refused(ClaimRejected)
  {
    hide DbOk;
    TenantFound(db, t);
  }

  /** Nothing but the sweep removes a tenant. */
  lemma OnlySweepsRemoveTenants(c: Config, s: State, l: Label, t: Id)
    requires Reachable(c, s) && t in s.db.tenants && t !in Next(c, s, l).db.tenants
    ensures StepOf(c, s, l).Sweeps?
  {
    hide Reachable, DbOk, LocksOk, ReqsOk, Next, Point, Exec, ExecRegister, Sweep, ParamsOk, PendingRow;
    ReachableInv(c, s);
    StepCommits(c, s, l);
    match StepOf(c, s, l)
    case Quiet =>
    case Commits(_, x, o) => TenantsRemain(x, o, s.db, t);
    case Sweeps(_) =>
    case Registers(id, row) => RegisterRow(s.db, id, row, t);
  }

  lemma TenantsRemain(x: Txn, o: Obs, db: Db, t: Id)
    requires Exec(x, o, db).Committed? && t in db.tenants
    ensures t in Exec(x, o, db).db.tenants
  {
    hide InvitationByToken, InvitationByPublicId;
  }

  /** A claim that has checked its tenant keeps it, unchanged, until it commits or ends: no sweep and
      no other claim gets in between. */
  lemma ClaimKeepsItsTenant(c: Config, s: State, r: nat)
    requires Reachable(c, s) && r in s.reqs && s.reqs[r].phase.Run? && s.reqs[r].phase.txn.ClaimTenant?
    requires s.reqs[r].phase.stage != LockTenant
    ensures s.reqs[r].phase.seen.SawTenant?
    ensures var seen, x := s.reqs[r].phase.seen, s.reqs[r].phase.txn;
            seen.tenantId in s.db.tenants && s.db.tenants[seen.tenantId] == seen.tenant && ClaimMatches(seen.tenant, x.token, seen.at)
  {
    hide Reachable, DbOk, LocksOk, ParamsOk, ClaimMatches;
    ReachableInv(c, s);
    assert ReqOk(c, s.db, s.reqs[r]);
  }
}

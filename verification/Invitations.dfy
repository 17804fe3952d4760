/** The life of an invitation over every run: it closes at most once, and acceptances and the
    memberships they insert correspond one to one. */
module InvitationHistory {
  import opened Domain
  import opened Tables
  import opened AtomicLaws
  import opened Machine
  import opened Invariant
  import opened Schedules
  import opened Histories

  predicate AcceptedIn(db: Db, i: Id) { i in db.invitations && db.invitations[i].accepted.Some? }

  /** What an acceptance does, whole: an open invitation is marked, and its staff membership, which was
      not there, appears under the invitation's own display name. */
  lemma AcceptanceEffect(x: Txn, o: Obs, db: Db)
    requires DbOk(db) && x.AcceptInvite? && Exec(x, o, db).Committed?
    ensures InvitationByToken(db, x.tenant, x.token).Some?
    ensures var i := InvitationByToken(db, x.tenant, x.token).value;
            var row, k := db.invitations[i], MemberKey(x.tenant, x.subject);
            row.tenantId == x.tenant && row.tokenHash == x.token && InvitationOpen(row, o.now) && k !in db.members &&
            Exec(x, o, db).db == db.(members := db.members[k := Member(RoleStaff, row.name)],
                                     invitations := db.invitations[i := row.(accepted := Some(Acceptance(o.now, x.subject)))])
  {
    hide DbOk;
    InvitationHome(db, InvitationByToken(db, x.tenant, x.token).value);
  }

  /** An invitation becomes accepted exactly by an acceptance with its token. */
  lemma AcceptedBy(x: Txn, o: Obs, db: Db, i: Id)
    requires DbOk(db) && ParamsOk(db, x) && Exec(x, o, db).Committed? && !AcceptedIn(db, i)
    ensures AcceptedIn(Exec(x, o, db).db, i) <==> x.AcceptInvite? && InvitationByToken(db, x.tenant, x.token) == Some(i)
  {
    hide DbOk, TenantByPublicId;
  }

  // ---------------------------------------------------------------- the ledger of acceptances

  /** An acceptance of the run: the step that commits it, the invitation, and the membership inserted. */
  datatype Entry = Entry(step: nat, invitation: Id, member: MemberKey)

  /** The step commits an acceptance. */
  ghost predicate Accepts(c: Config, s: State, l: Label) { StepOf(c, s, l).Commits? && StepOf(c, s, l).txn.AcceptInvite? }

  /** The entry of step number n, taken from the state it finds. */
  ghost function EntryOf(c: Config, s: State, l: Label, n: nat): seq<Entry> {
    if !Accepts(c, s, l) then []
    else
      var x := StepOf(c, s, l).txn;
      var found := InvitationByToken(s.db, x.tenant, x.token);
      [Entry(n, if found.Some? then found.value else "", MemberKey(x.tenant, x.subject))]
  }

  ghost function Ledger(c: Config, s: State, ls: seq<Label>): seq<Entry>
    decreases |ls|
  {
    if ls == [] then []
    else
      var n := |ls| - 1;
      Ledger(c, s, ls[..n]) + EntryOf(c, After(c, s, ls[..n]), ls[n], n)
  }

  /** The row says what the entry says, and was accepted in time. */
  predicate Records(db: Db, e: Entry) {
    AcceptedIn(db, e.invitation) &&
    var row := db.invitations[e.invitation];
    row.tenantId == e.member.tenant && row.accepted.value.user == e.member.user && row.accepted.value.at < row.expiresAt
  }

  /** What the step of the entry did: the invitation was not accepted and the membership not there; now it
      is accepted, and the one membership inserted is a staff one under the invitation's display name. */
  predicate Inserts(db: Db, db': Db, e: Entry) {
    e.invitation in db.invitations && !AcceptedIn(db, e.invitation) && AcceptedIn(db', e.invitation) &&
    e.member !in db.members && db'.members == db.members[e.member := Member(RoleStaff, db.invitations[e.invitation].name)]
  }

  lemma EntryStep(c: Config, s: State, l: Label, n: nat)
    requires Inv(c, s)
    ensures forall i :: AcceptedIn(s.db, i) ==> AcceptedIn(Next(c, s, l).db, i)
    ensures !Accepts(c, s, l) ==> forall i :: AcceptedIn(Next(c, s, l).db, i) ==> AcceptedIn(s.db, i)
    ensures Accepts(c, s, l) ==>
              var e, db' := EntryOf(c, s, l, n)[0], Next(c, s, l).db;
              Records(db', e) && Inserts(s.db, db', e) && forall i :: AcceptedIn(db', i) <==> AcceptedIn(s.db, i) || i == e.invitation
  {
    hide DbOk, LocksOk, ReqsOk, Next, Point, Exec, ExecRegister, Sweep, ParamsOk, PendingRow;
    StepCommits(c, s, l);
    NextKeepsInv(c, s, l);
    var db' := Next(c, s, l).db;
    match StepOf(c, s, l)
    case Quiet =>
    case Commits(_, x, o) =>
      forall i | !AcceptedIn(s.db, i)
        ensures AcceptedIn(db', i) <==> x.AcceptInvite? && InvitationByToken(s.db, x.tenant, x.token) == Some(i)
      {
        AcceptedBy(x, o, s.db, i);
      }
      if x.AcceptInvite? { AcceptanceEffect(x, o, s.db); }
    case Sweeps(now) => SweepExact(s.db, now);
    case Registers(id, row) => RegisterInvitations(s.db, id, row);
  }

  lemma RegisterInvitations(db: Db, id: Id, row: Tenant)
    requires ExecRegister(db, id, row).Committed?
    ensures ExecRegister(db, id, row).db.invitations == db.invitations
  {
  }

  lemma RecordsStay(db: Db, db': Db, e: Entry)
    requires Records(db, e) && Forward(db, db')
    ensures Records(db', e)
  {
  }

  predicate Distinct(es: seq<Entry>) {
    forall a, b :: 0 <= a < b < |es| ==> es[a].step < es[b].step && es[a].invitation != es[b].invitation
  }

  /** The entry was made by its step, and every acceptance has one. */
  ghost predicate MadeBy(c: Config, s: State, ls: seq<Label>, e: Entry) {
    e.step < |ls| && Accepts(c, After(c, s, ls[..e.step]), ls[e.step]) &&
    Inserts(After(c, s, ls[..e.step]).db, After(c, s, ls[..e.step + 1]).db, e)
  }

  ghost predicate HasEntry(es: seq<Entry>, n: nat) { exists a :: 0 <= a < |es| && es[a].step == n }

  ghost predicate InLedger(es: seq<Entry>, i: Id) { exists a :: 0 <= a < |es| && es[a].invitation == i }

  /** What the ledger of a run says of it. */
  ghost predicate Accounts(c: Config, s: State, ls: seq<Label>, es: seq<Entry>) {
    Distinct(es) && (forall e :: e in es ==> MadeBy(c, s, ls, e) && Records(After(c, s, ls).db, e)) &&
    (forall n :: 0 <= n < |ls| && Accepts(c, After(c, s, ls[..n]), ls[n]) ==> HasEntry(es, n)) &&
    (forall i :: AcceptedIn(After(c, s, ls).db, i) <==> AcceptedIn(s.db, i) || InLedger(es, i))
  }

  lemma AppendEntry(es: seq<Entry>, e: Entry)
    ensures forall i :: InLedger(es + [e], i) <==> InLedger(es, i) || i == e.invitation
    ensures forall n :: HasEntry(es + [e], n) <==> HasEntry(es, n) || n == e.step
    ensures Distinct(es) && (forall d :: d in es ==> d.step < e.step) && !InLedger(es, e.invitation) ==> Distinct(es + [e])
  {
    var all := es + [e];
    assert all[|es|] == e;
    forall i | InLedger(es, i) ensures InLedger(all, i) {
      var a :| 0 <= a < |es| && es[a].invitation == i;
      assert all[a].invitation == i;
    }
    forall n | HasEntry(es, n) ensures HasEntry(all, n) {
      var a :| 0 <= a < |es| && es[a].step == n;
      assert all[a].step == n;
    }
    if Distinct(es) && (forall d :: d in es ==> d.step < e.step) && !InLedger(es, e.invitation) {
      forall a, b | 0 <= a < b < |all| ensures all[a].step < all[b].step && all[a].invitation != all[b].invitation {
        if b == |es| { assert es[a] in es && es[a].invitation != e.invitation; }
      }
    }
  }

  lemma AccountsAppend(c: Config, s: State, ls: seq<Label>, l: Label, es: seq<Entry>)
    requires Inv(c, s) && Accounts(c, s, ls, es)
    ensures Accounts(c, s, ls + [l], es + EntryOf(c, After(c, s, ls), l, |ls|))
  {
    hide Inv, Next, Point, StepOf, Records, AcceptedIn, Forward, Inserts, EntryOf, Accepts;
    var before, all, n := After(c, s, ls), ls + [l], |ls|;
    var entry := EntryOf(c, before, l, n);
    var es' := es + entry;
    assert all[..n] == ls && all[n] == l && all[..n + 1] == all;
    assert forall k :: 0 <= k <= n ==> all[..k] == ls[..k];
    ScheduleKeepsInv(c, s, ls);
    AfterLast(c, s, all);
    EntryStep(c, before, l, n);
    NextKeepsInv(c, before, l);
    EntryIs(c, before, l, n);
    forall e | e in es ensures MadeBy(c, s, all, e) && Records(After(c, s, all).db, e) {
      assert MadeBy(c, s, ls, e);
      RecordsStay(before.db, After(c, s, all).db, e);
    }
    if Accepts(c, before, l) {
      var e := entry[0];
      assert entry == [e] && MadeBy(c, s, all, e);
      NotYetAccepted(before.db, After(c, s, all).db, e);
      AppendEntry(es, e);
    } else {
      assert es' == es;
    }
  }

  lemma EntryIs(c: Config, s: State, l: Label, n: nat)
    ensures if Accepts(c, s, l) then |EntryOf(c, s, l, n)| == 1 && EntryOf(c, s, l, n)[0].step == n else EntryOf(c, s, l, n) == []
  {
    hide StepOf;
  }

  lemma NotYetAccepted(db: Db, db': Db, e: Entry)
    requires Inserts(db, db', e)
    ensures !AcceptedIn(db, e.invitation)
  {
  }

  /** Over every run: each acceptance step has exactly one entry in the ledger and each entry its step; the
      step inserts exactly the entry's membership, not there before, as staff under the invitation's
      display name, in the same commit; the invitations that get accepted are exactly those of the
      ledger, each once; and each row names the member it inserted and was accepted before it expired. */
  lemma {:induction false} AcceptancesMatchMemberships(c: Config, s: State, ls: seq<Label>)
    requires Inv(c, s)
    ensures Accounts(c, s, ls, Ledger(c, s, ls))
    decreases |ls|
  {
    hide Inv, Next, EntryOf, Records, AcceptedIn, Inserts, Accepts, Point;
    if ls != [] {
      var n := |ls| - 1;
      AcceptancesMatchMemberships(c, s, ls[..n]);
      AccountsAppend(c, s, ls[..n], ls[n], Ledger(c, s, ls[..n]));
      assert ls[..n] + [ls[n]] == ls;
    }
  }

  // ---------------------------------------------------------------- closing

  /** A stored invitation stays; once closed it never changes again; and it is never both accepted
      and revoked. */
  lemma ClosesAtMostOnce(c: Config, s: State, ls: seq<Label>, i: Id)
    requires Reachable(c, s) && i in s.db.invitations
    ensures i in After(c, s, ls).db.invitations
    ensures var was, row := s.db.invitations[i], After(c, s, ls).db.invitations[i];
            InvitationForward(was, row) && !(row.accepted.Some? && row.revoked.Some?)
  {
    hide Reachable, Inv, DbOk;
    ReachableInv(c, s);
    ScheduleKeepsInv(c, s, ls);
    InvDb(c, After(c, s, ls));
    InvitationHome(After(c, s, ls).db, i);
  }

  /** A step that ends a request in failure, or cancels it, changes no table: a refused acceptance
      leaves its invitation as it was, a refused claim its tenant and token. */
  lemma FailuresChangeNothing(c: Config, s: State, l: Label, r: nat)
    requires Reachable(c, s) && r in s.reqs && !s.reqs[r].phase.Done? && (l == Act(r) || l == Abort(r))
    requires Next(c, s, l).reqs[r].phase.Done? && Next(c, s, l).reqs[r].phase.reply.Failure?
    ensures Next(c, s, l).db == s.db
  {
    hide Reachable, Inv, Gate, GateEventTenant, Wants, Execute, ExecRegister, Sweep, SweepFree, NewTenantRow;
  }
}

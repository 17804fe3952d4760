/** Atomicity: whatever the interleaving, a transaction's outcome is the one its one-at-a-time
    meaning has on the committed state at a single moment, the commit or the refusing statement. */
module Refinement {
  import opened Domain
  import opened Subdomains
  import opened TenantContext
  import opened Tables
  import opened AtomicLaws
  import opened Machine
  import opened Invariant
  import opened Interference

  /** What the request observed outside its locks: the clock when it read the row it closes, and,
      in the statement that guards on it, the archived flag. */
  ghost function ObsAt(x: Txn, st: Stage, seen: Seen, db: Db, clock: int): Obs {
    Obs(if seen.SawTenant? || seen.SawInvite? then seen.at else clock,
        match x
        case NewEvent(t, _, _, _) => st == GuardTenant ==> t in db.tenants && !db.tenants[t].archived
        case SetStatus(e, _, _) =>
          st == GuardStatus ==> e in db.events && db.events[e].tenantId in db.tenants && !db.tenants[db.events[e].tenantId].archived
        case _ => true)
  }

  lemma EventFound(db: Db, e: Id)
    requires DbOk(db) && e in db.events
    ensures EventByPublicId(db, db.events[e].publicId) == Some(e)
  {
    assert EventByPublicId(db, db.events[e].publicId).Some?;
  }

  lemma TenantFound(db: Db, t: Id)
    requires DbOk(db) && t in db.tenants
    ensures TenantByPublicId(db, db.tenants[t].publicId) == Some(t)
  {
    var found := TenantByPublicId(db, db.tenants[t].publicId);
    assert found.Some?;
  }

  lemma InvitationFound(db: Db, i: Id)
    requires DbOk(db) && i in db.invitations
    ensures InvitationByToken(db, db.invitations[i].tenantId, db.invitations[i].tokenHash) == Some(i)
    ensures InvitationByPublicId(db, db.invitations[i].tenantId, db.invitations[i].publicId) == Some(i)
  {
    var row := db.invitations[i];
    assert InvitationByToken(db, row.tenantId, row.tokenHash).Some?;
    assert InvitationByPublicId(db, row.tenantId, row.publicId).Some?;
  }

  // ---------------------------------------------------------------- commits

  lemma CommitGuarded(c: Config, db: Db, x: Txn, seen: Seen, held: set<Lock>, pending: seq<Write>, o: Obs)
    requires Guarded(x) && DbOk(db) && ParamsOk(db, x) && GuardedOk(c, db, x, CommitPoint, seen, held, pending)
    ensures Exec(x, o, db) == Committed(ApplyAll(pending, db))
  {
    hide TenantRows, EventRows, MemberRows, RoleRows, InvitationRows, UniqueTenants, UniqueEvents, UniqueInvitations,
         EventRefs, MemberRefs, RoleRefs, InvitationRefs, OwnersOk, ExecAcceptInvite, ExecRevokeInvite,
         ExecAddMember, ExecClaim, ExecAdminister, ExecNewEvent, ExecSetStatus;
    ApplyTwo(pending[0], pending[0], db);
    assert pending == [pending[0]];
    if ChecksLastOwner(x) {
      OwnerOfOwned(db, x.tenant);
      LastOwnerRule(db, x.tenant, x.user);
    }
  }

  lemma CommitAccept(c: Config, db: Db, x: Txn, seen: Seen, held: set<Lock>, pending: seq<Write>, o: Obs)
    requires x.AcceptInvite? && AcceptOk(c, db, x, CommitPoint, seen, held, pending)
    requires DbOk(db) && ParamsOk(db, x) && o.now == seen.at
    ensures Exec(x, o, db) == Committed(ApplyAll(pending, db))
  {
    hide DbOk, ExecChangeRole, ExecRevokeMember, ExecGrantRole, ExecRevokeEventRole, ExecInvite, ExecRevokeInvite,
         ExecAddMember, ExecClaim, ExecAdminister, ExecNewEvent, ExecSetStatus, InvitationOpen;
    InvitationFound(db, seen.inviteId);
    ApplyTwo(pending[0], pending[1], db);
  }

  lemma CommitRevokeInvite(db: Db, x: Txn, seen: Seen, held: set<Lock>, pending: seq<Write>, o: Obs)
    requires x.RevokeInvite? && RevokeInviteOk(db, x, CommitPoint, seen, held, pending)
    requires DbOk(db) && o.now == seen.at
    ensures Exec(x, o, db) == Committed(ApplyAll(pending, db))
  {
    hide DbOk;
    InvitationFound(db, seen.inviteId);
    ApplyTwo(pending[0], pending[0], db);
    assert pending == [pending[0]];
  }

  lemma CommitClaim(db: Db, x: Txn, seen: Seen, held: set<Lock>, pending: seq<Write>, o: Obs)
    requires x.ClaimTenant? && ClaimOk(db, x, CommitPoint, seen, held, pending)
    requires DbOk(db) && o.now == seen.at
    ensures Exec(x, o, db) == Committed(ApplyAll(pending, db))
  {
    hide DbOk, ExecChangeRole, ExecRevokeMember, ExecGrantRole, ExecRevokeEventRole, ExecInvite, ExecAcceptInvite,
         ExecRevokeInvite, ExecAddMember, ExecAdminister, ExecNewEvent, ExecSetStatus;
    TenantFound(db, seen.tenantId);
    ApplyTwo(pending[0], pending[1], db);
  }

  lemma CommitAdmin(db: Db, x: Txn, seen: Seen, held: set<Lock>, pending: seq<Write>, o: Obs)
    requires Administers(x) && AdminOk(db, x, CommitPoint, seen, held, pending) && DbOk(db)
    ensures Exec(x, o, db) == Committed(ApplyAll(pending, db))
  {
    hide DbOk;
    TenantFound(db, seen.tenantId);
    ApplyTwo(pending[0], pending[0], db);
    assert pending == [pending[0]];
  }

  lemma CommitNewEvent(db: Db, x: Txn, seen: Seen, held: set<Lock>, pending: seq<Write>, o: Obs)
    requires x.NewEvent? && NewEventOk(db, x, CommitPoint, seen, held, pending) && ParamsOk(db, x) && o.open
    ensures Exec(x, o, db) == Committed(ApplyAll(pending, db))
  {
    ApplyTwo(pending[0], pending[1], db);
  }

  lemma CommitOneRow(db: Db, x: Txn, seen: Seen, held: set<Lock>, pending: seq<Write>, o: Obs)
    requires (x.SetStatus? && SetStatusOk(db, x, CommitPoint, seen, held, pending)) ||
             (x.AddMember? && AddMemberOk(db, x, CommitPoint, seen, held, pending))
    requires ParamsOk(db, x) && o.open
    ensures Exec(x, o, db) == Committed(ApplyAll(pending, db))
  {
    ApplyTwo(pending[0], pending[0], db);
    assert pending == [pending[0]];
  }

  /** What a commit makes of the committed state is what the transaction, run alone at that moment,
      makes of it. */
  lemma CommitIsAtomic(c: Config, db: Db, x: Txn, seen: Seen, held: set<Lock>, pending: seq<Write>, clock: int)
    requires DbOk(db) && ParamsOk(db, x) && StageOk(c, db, x, CommitPoint, seen, held, pending)
    ensures Exec(x, ObsAt(x, CommitPoint, seen, db, clock), db) == Committed(ApplyAll(pending, db))
  {
    hide DbOk, ParamsOk, Exec;
    var o := ObsAt(x, CommitPoint, seen, db, clock);
    if Guarded(x) { CommitGuarded(c, db, x, seen, held, pending, o); }
    else if x.AcceptInvite? { CommitAccept(c, db, x, seen, held, pending, o); }
    else if x.RevokeInvite? { CommitRevokeInvite(db, x, seen, held, pending, o); }
    else if x.ClaimTenant? { CommitClaim(db, x, seen, held, pending, o); }
    else if Administers(x) { CommitAdmin(db, x, seen, held, pending, o); }
    else if x.NewEvent? { CommitNewEvent(db, x, seen, held, pending, o); }
    else { CommitOneRow(db, x, seen, held, pending, o); }
  }

  // ---------------------------------------------------------------- refusals

  lemma RefuseGuarded(c: Config, db: Db, x: Txn, st: Stage, seen: Seen, held: set<Lock>, pending: seq<Write>, clock: int, o: Obs)
    requires Guarded(x) && ParamsOk(db, x) && GuardedOk(c, db, x, st, seen, held, pending)
    requires st != CommitPoint && Execute(x, st, seen, db, clock).Fail?
    ensures Exec(x, o, db) == Refused(Execute(x, st, seen, db, clock).error)
  {
  }

  lemma RefuseInvite(c: Config, db: Db, x: Txn, st: Stage, seen: Seen, held: set<Lock>, pending: seq<Write>, clock: int, o: Obs)
    requires (x.AcceptInvite? && AcceptOk(c, db, x, st, seen, held, pending)) ||
             (x.RevokeInvite? && RevokeInviteOk(db, x, st, seen, held, pending))
    requires DbOk(db) && ParamsOk(db, x)
    requires o.now == if seen.SawInvite? then seen.at else clock
    requires st != CommitPoint && Execute(x, st, seen, db, clock).Fail?
    ensures Exec(x, o, db) == Refused(Execute(x, st, seen, db, clock).error)
  {
    hide DbOk;
    if seen.SawInvite? { InvitationFound(db, seen.inviteId); }
  }

  lemma RefuseTenant(c: Config, db: Db, x: Txn, st: Stage, seen: Seen, held: set<Lock>, pending: seq<Write>, clock: int, o: Obs)
    requires (x.ClaimTenant? && ClaimOk(db, x, st, seen, held, pending)) ||
             (Administers(x) && AdminOk(db, x, st, seen, held, pending))
    requires DbOk(db) && ParamsOk(db, x)
    requires o.now == if seen.SawTenant? then seen.at else clock
    requires st != CommitPoint && Execute(x, st, seen, db, clock).Fail?
    ensures Exec(x, o, db) == Refused(Execute(x, st, seen, db, clock).error)
  {
    hide DbOk;
    if seen.SawTenant? { TenantFound(db, seen.tenantId); }
  }

  lemma RefuseEvent(c: Config, db: Db, x: Txn, st: Stage, seen: Seen, held: set<Lock>, pending: seq<Write>, clock: int)
    requires (x.NewEvent? && NewEventOk(db, x, st, seen, held, pending)) ||
             (x.SetStatus? && SetStatusOk(db, x, st, seen, held, pending)) ||
             (x.AddMember? && AddMemberOk(db, x, st, seen, held, pending))
    requires ParamsOk(db, x)
    requires st != CommitPoint && Execute(x, st, seen, db, clock).Fail?
    ensures Exec(x, ObsAt(x, st, seen, db, clock), db) == Refused(Execute(x, st, seen, db, clock).error)
  {
  }

  /** A transaction that is refused by a statement is refused, with the same error, by its
      one-at-a-time meaning on the committed state at that statement. */
  lemma RefusalIsAtomic(c: Config, db: Db, x: Txn, st: Stage, seen: Seen, held: set<Lock>, pending: seq<Write>, clock: int)
    requires DbOk(db) && ParamsOk(db, x) && StageOk(c, db, x, st, seen, held, pending)
    requires st != CommitPoint && Execute(x, st, seen, db, clock).Fail?
    ensures Exec(x, ObsAt(x, st, seen, db, clock), db) == Refused(Execute(x, st, seen, db, clock).error)
  {
    hide DbOk, ParamsOk, Exec, Execute, ClaimOk, AdminOk, NewEventOk, SetStatusOk, AddMemberOk, RevokeInviteOk,
         AcceptOk, GuardedOk;
    var o := ObsAt(x, st, seen, db, clock);
    if Guarded(x) { RefuseGuarded(c, db, x, st, seen, held, pending, clock, o); }
    else if x.AcceptInvite? || x.RevokeInvite? {
      SeenKind(c, db, x, st, seen, held, pending);
      RefuseInvite(c, db, x, st, seen, held, pending, clock, o);
    } else if x.ClaimTenant? || Administers(x) {
      SeenKind(c, db, x, st, seen, held, pending);
      RefuseTenant(c, db, x, st, seen, held, pending, clock, o);
    } else { RefuseEvent(c, db, x, st, seen, held, pending, clock); }
  }

  lemma SeenKind(c: Config, db: Db, x: Txn, st: Stage, seen: Seen, held: set<Lock>, pending: seq<Write>)
    requires StageOk(c, db, x, st, seen, held, pending)
    ensures x.AcceptInvite? || x.RevokeInvite? ==> !seen.SawTenant?
    ensures x.ClaimTenant? || Administers(x) ==> !seen.SawInvite?
  {
  }
}

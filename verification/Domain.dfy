/** Values and rules of the tenant and relation domain models: roles and the scopes they
    issue, display names, invitations, tenants and event statuses. */
module Domain {

  /** Internal primary keys, public IDs and user IDs. */
  type Id = string

  /** The SHA-256 digest of a one-time token; the hash function itself is a parameter. */
  type Hash = int

  datatype Option<+T> = None | Some(value: T)

  datatype Result<+T> = Ok(value: T) | Err(error: Error)

  datatype Error =
    | TenantNameRequired | ContractPlanRequired | TenantIDRequired | EventNameRequired
    | EventIDRequired | EventStatusRequired | UserIDRequired | ScopeRequired | ScopeAmbiguous
    | FilterRequired | FilterAmbiguous | InvitationIDRequired | InvitationTokenRequired
    | ClaimTokenRequired | DisplayNameRequired | DisplayNameTooLong | InvalidSubdomain
    | RoleRequired | RoleReserved | RoleNotInvitable
    | ContextMissing | SubjectMissing | ContextMismatch
    | TenantNotFound | TenantArchived | TenantPendingOwner | TenantPublicIDExists | SubdomainExists
    | TenantNotPendingOwner | TenantAlreadyArchived
    | EventNotFound | EventIsArchived | EventPublicIDExists | InvalidTransition
    | MembershipNotFound | MembershipAlreadyExists | TenantMembershipRequired | EventRoleNotFound
    | InvitationNotFound | InvitationPublicIDExists | InvitationNotPending | InvitationRejected
    | ClaimRejected | PermissionDenied | LastOwner | CreatorNotMember
    | ParseFailure | Internal | TransactionAborted

  // ---------------------------------------------------------------- roles

  datatype Role = RoleUnspecified | RoleOwner | RoleStaff | RoleAdmin

  const ScopeTenantWrite := "tenant.write"
  const MemberScopes := ["tenant.read", "events.read", "events.manage", "events.operate", "events.report"]
  const AdminScopes := [ScopeTenantWrite]

  /** Whether a role can issue a scope. */
  predicate Grants(r: Role, scope: string) {
    match r
    case RoleOwner | RoleAdmin => scope in MemberScopes || scope in AdminScopes
    case RoleStaff => scope in MemberScopes
    case RoleUnspecified => false
  }

  /** The reason a role may not be assigned, if there is one. */
  function Grantable(r: Role): Option<Error> {
    match r
    case RoleOwner | RoleStaff => None
    case RoleAdmin => Some(RoleReserved)
    case RoleUnspecified => Some(RoleRequired)
  }

  function Invitable(r: Role): Option<Error> {
    if r != RoleStaff then Some(RoleNotInvitable) else None
  }

  /** A role that a row may hold. */
  predicate StoredRole(r: Role) { r == RoleOwner || r == RoleStaff }

  /** Staff issue the five member scopes, owners and administrators these and the tenant write scope, an
      unspecified role none; so the write scope separates the administering roles from all others. */
  lemma WriteScope(r: Role)
    ensures forall s :: Grants(r, s) <==>
              (r != RoleUnspecified && s in {"tenant.read", "events.read", "events.manage", "events.operate", "events.report"}) ||
              (r in {RoleOwner, RoleAdmin} && s == "tenant.write")
    ensures Grants(r, ScopeTenantWrite) <==> r == RoleOwner || r == RoleAdmin
    ensures StoredRole(r) ==> (Grants(r, ScopeTenantWrite) <==> r == RoleOwner)
    ensures Grantable(r) == None <==> StoredRole(r)
  {
    assert |ScopeTenantWrite| == 12;
    assert ScopeTenantWrite[0] == 't' && "events.manage"[0] == 'e' && "events.report"[0] == 'e';
    assert AdminScopes[0] == ScopeTenantWrite;
  }

  // ---------------------------------------------------------------- display names

  const MaxDisplayNameLength := 64

  /** Unicode White_Space, the characters that TrimSpace removes. */
  predicate IsSpace(c: char) {
    '\t' <= c <= '\r' || c == ' ' || c == '\U{85}' || c == '\U{A0}' || c == '\U{1680}' ||
    '\U{2000}' <= c <= '\U{200A}' || c == '\U{2028}' || c == '\U{2029}' || c == '\U{202F}' ||
    c == '\U{205F}' || c == '\U{3000}'
  }

  function TrimLeft(s: string): (r: string)
    ensures |r| <= |s| && r == s[|s| - |r|..]
    ensures r != "" ==> !IsSpace(r[0])
    ensures forall i :: 0 <= i < |s| - |r| ==> IsSpace(s[i])
  {
    if s != "" && IsSpace(s[0]) then TrimLeft(s[1..]) else s
  }

  function TrimRight(s: string): (r: string)
    ensures |r| <= |s| && r == s[..|r|]
    ensures r != "" ==> !IsSpace(r[|r| - 1])
    ensures forall i :: |r| <= i < |s| ==> IsSpace(s[i])
  {
    if s != "" && IsSpace(s[|s| - 1]) then TrimRight(s[..|s| - 1]) else s
  }

  function TrimSpace(s: string): (r: string)
    ensures r != "" ==> !IsSpace(r[0]) && !IsSpace(r[|r| - 1])
  {
    TrimRight(TrimLeft(s))
  }

  /** A display name as the domain keeps it. */
  predicate ValidName(n: string) {
    n != "" && |n| <= MaxDisplayNameLength && !IsSpace(n[0]) && !IsSpace(n[|n| - 1])
  }

  function ParseDisplayName(s: string): Result<string> {
    var trimmed := TrimSpace(s);
    if trimmed == "" then Err(DisplayNameRequired)
    else if |trimmed| > MaxDisplayNameLength then Err(DisplayNameTooLong)
    else Ok(trimmed)
  }

  lemma {:induction false} TrimLeftIsCore(s: string, i: nat)
    requires i < |s| && !IsSpace(s[i]) && forall k :: 0 <= k < i ==> IsSpace(s[k])
    ensures TrimLeft(s) == s[i..]
  {
    if i > 0 {
      TrimLeftIsCore(s[1..], i - 1);
      assert s[1..][i - 1..] == s[i..];
    }
  }

  lemma {:induction false} TrimRightIsCore(s: string, j: nat)
    requires 0 < j <= |s| && !IsSpace(s[j - 1]) && forall k :: j <= k < |s| ==> IsSpace(s[k])
    ensures TrimRight(s) == s[..j]
    decreases |s|
  {
    if j < |s| {
      var shorter := s[..|s| - 1];
      TrimRightIsCore(shorter, j);
      assert shorter[..j] == s[..j];
    } else {
      assert s[..j] == s;
    }
  }

  lemma RestIsBlank(s: string, i: nat, j: nat)
    requires i < j <= |s| && !IsSpace(s[j - 1]) && forall k :: j <= k < |s| ==> IsSpace(s[k])
    ensures var rest := s[i..]; !IsSpace(rest[j - i - 1]) && forall k :: j - i <= k < |rest| ==> IsSpace(rest[k])
  {
    hide IsSpace;
  }

  /** Trimming cuts a string that is not all blank down to its core, from its first non-blank to its last. */
  lemma TrimSpaceIsCore(s: string, i: nat, j: nat)
    requires i < j <= |s| && !IsSpace(s[i]) && !IsSpace(s[j - 1])
    requires (forall k :: 0 <= k < i ==> IsSpace(s[k])) && (forall k :: j <= k < |s| ==> IsSpace(s[k]))
    ensures TrimSpace(s) == s[i..j]
  {
    hide IsSpace, TrimLeft, TrimRight;
    TrimLeftIsCore(s, i);
    RestIsBlank(s, i, j);
    TrimRightIsCore(s[i..], j - i);
    assert s[i..][..j - i] == s[i..j];
  }

  /** Parsing accepts exactly the strings whose non-blank core is present and short enough,
      yields a valid name, and is the identity on valid names. */
  lemma ParseDisplayNameRoundTrip(s: string)
    ensures ParseDisplayName(s).Ok? ==> ValidName(ParseDisplayName(s).value)
    ensures ValidName(s) <==> ParseDisplayName(s) == Ok(s)
    ensures ParseDisplayName(s) == Err(DisplayNameRequired) <==> forall c :: c in s ==> IsSpace(c)
    ensures ParseDisplayName(s) == Err(DisplayNameTooLong) <==> |TrimSpace(s)| > MaxDisplayNameLength
  {
    var l := TrimLeft(s);
    var r := TrimSpace(s);
    if r == "" {
      forall c | c in s ensures IsSpace(c) {
        var i :| 0 <= i < |s| && s[i] == c;
      }
    } else {
      assert r[0] == l[0] == s[|s| - |l|];
      assert r[0] in s;
    }
  }

  // ---------------------------------------------------------------- tenants

  datatype Ownership = OwnershipUnspecified | PendingOwner | Owned

  /** A row of the tenants table. tokenHash and expiresAt are the pending ownership claim. */
  datatype Tenant = Tenant(publicId: Id, name: string, plan: string, ownership: Ownership,
                           subdomain: Option<string>, tokenHash: Option<Hash>, expiresAt: Option<int>,
                           archived: bool)

  /** OwnershipClaim.Expired: the claim can no longer be used at now. */
  predicate ClaimExpired(expiresAt: int, now: int) { !(now < expiresAt) }

  function ClaimOwnership(t: Tenant, subdomain: string): Result<Tenant> {
    if t.ownership != PendingOwner then Err(TenantNotPendingOwner)
    else Ok(t.(ownership := Owned, subdomain := Some(subdomain)))
  }

  function ArchiveTenantRow(t: Tenant): Result<Tenant> {
    if t.archived then Err(TenantAlreadyArchived) else Ok(t.(archived := true))
  }

  // ---------------------------------------------------------------- events

  datatype EventStatus = StatusUnspecified | Draft | Open | Locked | Closed | Archived

  datatype Event = Event(publicId: Id, tenantId: Id, tenantPublicId: Id, name: string, status: EventStatus)

  predicate CanTransition(from: EventStatus, to: EventStatus) {
    match from
    case StatusUnspecified => false
    case Draft => to == Open || to == Archived
    case Open => to == Locked
    case Locked => to == Closed || to == Open
    case Closed => to == Archived || to == Open
    case Archived => to == Closed
  }

  /** Exactly eight transitions: no event becomes a draft again, and an archived one only comes back
      as closed. */
  lemma EightTransitions(a: EventStatus, b: EventStatus)
    ensures (set p: (EventStatus, EventStatus) | p in AllPairs() && CanTransition(p.0, p.1)) ==
            {(Draft, Open), (Draft, Archived), (Open, Locked), (Locked, Closed), (Locked, Open), (Closed, Archived), (Closed, Open),
             (Archived, Closed)}
    ensures (a, b) in AllPairs()
    ensures !CanTransition(a, Draft) && !CanTransition(a, a) && (CanTransition(Archived, b) <==> b == Closed)
  {
  }

  function AllPairs(): set<(EventStatus, EventStatus)> {
    var all := {StatusUnspecified, Draft, Open, Locked, Closed, Archived};
    set a, b | a in all && b in all :: (a, b)
  }

  // ---------------------------------------------------------------- memberships and invitations

  datatype Member = Member(role: Role, name: string)

  datatype EventRole = EventRole(tenantId: Id, role: Role)

  datatype Acceptance = Acceptance(at: int, user: Id)

  /** A row of the tenant_invitations table. */
  datatype Invitation = Invitation(publicId: Id, tenantId: Id, role: Role, name: string,
                                   tokenHash: Hash, expiresAt: int,
                                   accepted: Option<Acceptance>, revoked: Option<int>)

  datatype InvitationState = InvitationPending | InvitationAccepted | InvitationRevoked

  function StateOf(i: Invitation): InvitationState {
    if i.accepted.Some? then InvitationAccepted
    else if i.revoked.Some? then InvitationRevoked
    else InvitationPending
  }

  predicate InvitationOpen(i: Invitation, now: int) {
    StateOf(i) == InvitationPending && now < i.expiresAt
  }
}

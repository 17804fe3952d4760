/** Stored rows: how values are encoded in columns, the CHECK constraints on them, and how rows are
    parsed back into domain values. */
module Rows {
  import opened Domain
  import opened Subdomains
  import opened TenantContext
  import opened Tables

  // ---------------------------------------------------------------- enumerations as strings

  const Roles := [RoleUnspecified, RoleOwner, RoleStaff, RoleAdmin]
  const OwnershipStates := [OwnershipUnspecified, PendingOwner, Owned]
  const EventStatuses := [StatusUnspecified, Draft, Open, Locked, Closed, Archived]

  function RoleString(r: Role): string {
    match r
    case RoleUnspecified => "unspecified"
    case RoleOwner => "owner"
    case RoleStaff => "staff"
    case RoleAdmin => "admin"
  }

  function OwnershipString(o: Ownership): string {
    match o
    case OwnershipUnspecified => "unspecified"
    case PendingOwner => "pending_owner"
    case Owned => "owned"
  }

  function StatusString(s: EventStatus): string {
    match s
    case StatusUnspecified => "unspecified"
    case Draft => "draft"
    case Open => "open"
    case Locked => "locked"
    case Closed => "closed"
    case Archived => "archived"
  }

  /** The value a string stands for, if any. */
  ghost function RoleNamed(s: string): Result<Role> {
    if r :| RoleString(r) == s then Ok(r) else Err(ParseFailure)
  }

  ghost function OwnershipNamed(s: string): Result<Ownership> {
    if o :| OwnershipString(o) == s then Ok(o) else Err(ParseFailure)
  }

  ghost function StatusNamed(s: string): Result<EventStatus> {
    if e :| StatusString(e) == s then Ok(e) else Err(ParseFailure)
  }

  /** No two values share a string. */
  lemma NamesAreDistinct(r: Role, o: Ownership, e: EventStatus)
    ensures RoleNamed("owner") == Ok(RoleOwner) && RoleNamed("staff") == Ok(RoleStaff) && RoleNamed("admin") == Ok(RoleAdmin)
    ensures OwnershipNamed("owned") == Ok(Owned) && OwnershipNamed("pending_owner") == Ok(PendingOwner)
    ensures StatusNamed("draft") == Ok(Draft) && StatusNamed("open") == Ok(Open) && StatusNamed("locked") == Ok(Locked)
    ensures StatusNamed("closed") == Ok(Closed) && StatusNamed("archived") == Ok(Archived)
    ensures RoleNamed(RoleString(r)) == Ok(r)
    ensures OwnershipNamed(OwnershipString(o)) == Ok(o)
    ensures StatusNamed(StatusString(e)) == Ok(e)
  {
    assert RoleString(RoleOwner)[0] == 'o' && RoleString(RoleStaff)[0] == 's' && RoleString(RoleAdmin)[0] == 'a' &&
           RoleString(RoleUnspecified)[0] == 'u';
    assert OwnershipString(Owned)[0] == 'o' && OwnershipString(PendingOwner)[0] == 'p' && OwnershipString(OwnershipUnspecified)[0] == 'u';
    assert StatusString(Locked)[0] == 'l' && StatusString(Closed)[0] == 'c' && StatusString(Open)[0] == 'o' &&
           StatusString(Draft)[0] == 'd' && StatusString(Archived)[0] == 'a' && StatusString(StatusUnspecified)[0] == 'u';
  }

  /** Each parser searches the values in order. */
  method ParseRole(s: string) returns (r: Result<Role>)
    ensures r == RoleNamed(s)
  {
    for i := 0 to |Roles|
      invariant forall j :: 0 <= j < i ==> RoleString(Roles[j]) != s
    {
      if RoleString(Roles[i]) == s {
        NamesAreDistinct(Roles[i], Owned, Open);
        return Ok(Roles[i]);
      }
    }
    forall v: Role ensures RoleString(v) != s {
      assert v == Roles[0] || v == Roles[1] || v == Roles[2] || v == Roles[3];
    }
    return Err(ParseFailure);
  }

  method ParseOwnershipState(s: string) returns (r: Result<Ownership>)
    ensures r == OwnershipNamed(s)
  {
    for i := 0 to |OwnershipStates|
      invariant forall j :: 0 <= j < i ==> OwnershipString(OwnershipStates[j]) != s
    {
      if OwnershipString(OwnershipStates[i]) == s {
        NamesAreDistinct(RoleOwner, OwnershipStates[i], Open);
        return Ok(OwnershipStates[i]);
      }
    }
    forall v: Ownership ensures OwnershipString(v) != s {
      assert v == OwnershipStates[0] || v == OwnershipStates[1] || v == OwnershipStates[2];
    }
    return Err(ParseFailure);
  }

  method ParseEventStatus(s: string) returns (r: Result<EventStatus>)
    ensures r == StatusNamed(s)
  {
    for i := 0 to |EventStatuses|
      invariant forall j :: 0 <= j < i ==> StatusString(EventStatuses[j]) != s
    {
      if StatusString(EventStatuses[i]) == s {
        NamesAreDistinct(RoleOwner, Owned, EventStatuses[i]);
        return Ok(EventStatuses[i]);
      }
    }
    forall v: EventStatus ensures StatusString(v) != s {
      assert v == EventStatuses[0] || v == EventStatuses[1] || v == EventStatuses[2] || v == EventStatuses[3] ||
             v == EventStatuses[4] || v == EventStatuses[5];
    }
    return Err(ParseFailure);
  }

  // ---------------------------------------------------------------- columns and their CHECK constraints

  /** btrim: removes blanks (U+0020) only, unlike TrimSpace. */
  function Btrim(s: string): string {
    if s != "" && s[0] == ' ' then Btrim(s[1..])
    else if s != "" && s[|s| - 1] == ' ' then Btrim(s[..|s| - 1])
    else s
  }

  predicate NameCheck(s: string) { Btrim(s) != "" && |s| <= 64 }

  datatype TenantColumns = TenantColumns(publicId: Id, name: string, plan: string, ownershipState: string,
      subdomain: Option<string>,
                                         tokenHash: Option<Hash>, expiresAt: Option<int>, archived: bool)
  datatype MemberColumns = MemberColumns(tenantRole: string, displayName: string)
  datatype InvitationColumns = InvitationColumns(publicId: Id, tenantId: Id, tenantRole: string,
      displayName: string, tokenHash: Hash,
                                                 expiresAt: int, acceptedAt: Option<int>, acceptedBy: Option<Id>, revokedAt: Option<int>)

  /** tenants_ownership_state_check, tenants_ownership_claim_check and tenants_subdomain_check. */
  predicate TenantChecks(r: TenantColumns) {
    (r.ownershipState == "pending_owner" || r.ownershipState == "owned") &&
    ((r.ownershipState == "pending_owner" && r.tokenHash.Some? && r.expiresAt.Some?) ||
     (r.ownershipState == "owned" && r.tokenHash.None? && r.expiresAt.None?)) &&
    (r.ownershipState == "owned" <==> r.subdomain.Some?)
  }

  /** tenant_memberships_tenant_role_check and tenant_memberships_display_name_check. */
  predicate MemberChecks(r: MemberColumns) { (r.tenantRole == "owner" || r.tenantRole == "staff") && NameCheck(r.displayName) }

  /** event_roles_role_check. */
  predicate EventRoleChecks(role: string) { role == "owner" || role == "staff" }

  /** The four CHECK constraints of tenant_invitations. */
  predicate InvitationChecks(r: InvitationColumns) {
    r.tenantRole == "staff" && NameCheck(r.displayName) && (r.acceptedAt.None? <==> r.acceptedBy.None?) &&
    (r.acceptedAt.None? || r.revokedAt.None?)
  }

  function EncodeTenant(t: Tenant): TenantColumns {
    TenantColumns(t.publicId, t.name, t.plan, OwnershipString(t.ownership), t.subdomain, t.tokenHash, t.expiresAt, t.archived)
  }

  function EncodeMember(m: Member): MemberColumns { MemberColumns(RoleString(m.role), m.name) }

  function EncodeInvitation(i: Invitation): InvitationColumns {
    InvitationColumns(i.publicId, i.tenantId, RoleString(i.role), i.name, i.tokenHash, i.expiresAt,
                      if i.accepted.Some? then Some(i.accepted.value.at) else None,
                      if i.accepted.Some? then Some(i.accepted.value.user) else None, i.revoked)
  }

  lemma NamesMeetCheck(n: string)
    requires ValidName(n)
    ensures NameCheck(n)
  {
    assert Btrim(n) == n;
  }

  /** The CHECK alone would not keep a stored name: any short name with a tab before it passes, and
      parses back to another; and a lone tab passes, and does not parse. */
  lemma NameCheckIsWeaker(n: string, tab: string)
    requires ValidName(n) && |n| < 64 && |tab| == 1 && tab[0] == '\t'
    ensures NameCheck(tab + n) && ParseDisplayName(tab + n) == Ok(n) && n != tab + n
    ensures NameCheck(tab) && ParseDisplayName(tab) == Err(DisplayNameRequired)
  {
    hide IsSpace, NameCheck, ParseDisplayName, ValidName;
    TabbedName(n, tab);
    LoneTab(tab);
  }

  lemma TabbedName(n: string, tab: string)
    requires ValidName(n) && |n| < 64 && |tab| == 1 && tab[0] == '\t'
    ensures NameCheck(tab + n) && ParseDisplayName(tab + n) == Ok(n) && n != tab + n
  {
    hide IsSpace;
    TabIsSpace();
    BlankIsSpace();
    var s := tab + n;
    assert s[1..] == n && s[0] == '\t' && s[|s| - 1] == n[|n| - 1];
    assert TrimLeft(n) == n && TrimRight(n) == n;
    assert TrimLeft(s) == TrimLeft(s[1..]);
    assert Btrim(s) == s;
  }

  lemma LoneTab(tab: string)
    requires |tab| == 1 && tab[0] == '\t'
    ensures NameCheck(tab) && ParseDisplayName(tab) == Err(DisplayNameRequired)
  {
    hide IsSpace;
    TabIsSpace();
    assert tab[1..] == "";
    assert Btrim(tab) == tab && TrimLeft(tab) == TrimLeft("");
  }

  lemma TabIsSpace()
    ensures IsSpace('\t')
  {
  }

  lemma BlankIsSpace()
    ensures IsSpace(' ')
  {
  }

  lemma TenantRowMeetsChecks(t: Tenant)
    requires TenantRowOk(t)
    ensures TenantChecks(EncodeTenant(t))
  {
    assert "pending_owner"[0] != "owned"[0];
  }

  lemma MemberRowMeetsChecks(m: Member)
    requires MemberRowOk(m)
    ensures MemberChecks(EncodeMember(m))
  {
    NamesMeetCheck(m.name);
  }

  lemma InvitationRowMeetsChecks(i: Invitation)
    requires InvitationRowOk(i)
    ensures InvitationChecks(EncodeInvitation(i))
  {
    NamesMeetCheck(i.name);
  }

  // ---------------------------------------------------------------- rows parsed back

  /** The domain tenant; an absent subdomain is the empty one. */
  datatype TenantModel = TenantModel(publicId: Id, name: string, plan: string, ownership: Ownership,
      subdomain: string, archived: bool)

  function NullableSubdomain(s: string): Option<string> { if s != "" then Some(s) else None }

  ghost function ParseSubdomainColumn(s: Option<string>): Result<string> {
    if s.None? then Ok("") else if ValidSubdomain(s.value) then Ok(s.value) else Err(InvalidSubdomain)
  }

  /** tenantRow.domain. */
  ghost function TenantDomain(ctx: Ctx, r: TenantColumns): Result<TenantModel> {
    var state, subdomain := OwnershipNamed(r.ownershipState), ParseSubdomainColumn(r.subdomain);
    if state.Err? then Err(state.error)
    else if subdomain.Err? then Err(subdomain.error)
    else if VerifyOwnership(ctx, r.publicId).Some? then Err(VerifyOwnership(ctx, r.publicId).value)
    else Ok(TenantModel(r.publicId, r.name, r.plan, state.value, subdomain.value, r.archived))
  }

  datatype InvitationModel = InvitationModel(publicId: Id, tenantId: Id, role: Role, name: string, expiresAt: int,
      state: InvitationState)

  /** invitationRow.domain. */
  ghost function InvitationDomain(r: InvitationColumns): Result<InvitationModel> {
    var role, name := RoleNamed(r.tenantRole), ParseDisplayName(r.displayName);
    if role.Err? then Err(role.error)
    else if name.Err? then Err(name.error)
    else Ok(InvitationModel(r.publicId, r.tenantId, role.value, name.value, r.expiresAt,
                            if r.acceptedAt.Some? then InvitationAccepted
                            else if r.revokedAt.Some? then InvitationRevoked else InvitationPending))
  }

  /** A tenant row parses back to what was written, for every caller of that tenant, and writing the
      parsed tenant's subdomain again gives the stored column. */
  lemma TenantRowRoundTrip(ctx: Ctx, t: Tenant)
    requires TenantRowOk(t)
    ensures TenantDomain(ctx, EncodeTenant(t)) ==
              if VerifyOwnership(ctx, t.publicId).Some? then Err(ContextMismatch)
              else Ok(TenantModel(t.publicId, t.name, t.plan, t.ownership, if t.subdomain.Some? then t.subdomain.value else "", t.archived))
    ensures ParseSubdomainColumn(t.subdomain).Ok? && NullableSubdomain(ParseSubdomainColumn(t.subdomain).value) == t.subdomain
  {
    NamesAreDistinct(RoleOwner, t.ownership, Open);
  }

  lemma MemberRowRoundTrip(m: Member)
    requires MemberRowOk(m)
    ensures RoleNamed(EncodeMember(m).tenantRole) == Ok(m.role) && ParseDisplayName(EncodeMember(m).displayName) == Ok(m.name)
  {
    NamesAreDistinct(m.role, Owned, Open);
    ParseDisplayNameRoundTrip(m.name);
  }

  lemma InvitationRowRoundTrip(i: Invitation)
    requires InvitationRowOk(i)
    ensures InvitationDomain(EncodeInvitation(i)) == Ok(InvitationModel(i.publicId, i.tenantId, i.role, i.name, i.expiresAt, StateOf(i)))
  {
    NamesAreDistinct(i.role, Owned, Open);
    ParseDisplayNameRoundTrip(i.name);
  }

  // ---------------------------------------------------------------- the domain transitions

  /** Invitation.Accept and Invitation.Revoke, on the parsed invitation. */
  function Close(i: InvitationModel, now: int, state: InvitationState): Result<InvitationModel> {
    if !(i.state == InvitationPending && now < i.expiresAt) then Err(InvitationNotPending) else Ok(i.(state := state))
  }

  /** Closing the parsed invitation and then marking the row, as the use cases do, is the same as
      parsing the marked row; and it is refused exactly when the row is not open. */
  lemma ClosingCommutes(i: Invitation, now: int, user: Id)
    requires InvitationRowOk(i)
    ensures var m := InvitationDomain(EncodeInvitation(i));
            m.Ok? && (Close(m.value, now, InvitationAccepted).Ok? <==> InvitationOpen(i, now)) &&
            (InvitationOpen(i, now) ==>
               Close(m.value, now, InvitationAccepted) == InvitationDomain(EncodeInvitation(i.(accepted := Some(Acceptance(now, user))))) &&
               Close(m.value, now, InvitationRevoked) == InvitationDomain(EncodeInvitation(i.(revoked := Some(now)))))
  {
    InvitationRowRoundTrip(i);
    if InvitationOpen(i, now) {
      InvitationRowRoundTrip(i.(accepted := Some(Acceptance(now, user))));
      InvitationRowRoundTrip(i.(revoked := Some(now)));
    }
  }

  /** Claiming the parsed tenant and marking the row is the same as parsing the marked row. */
  lemma ClaimingCommutes(ctx: Ctx, t: Tenant, subdomain: string)
    requires TenantRowOk(t) && ValidSubdomain(subdomain) && VerifyOwnership(ctx, t.publicId).None?
    ensures ClaimOwnership(t, subdomain).Ok? <==> t.ownership == PendingOwner
    ensures t.ownership == PendingOwner ==>
              var row := t.(ownership := Owned, subdomain := Some(subdomain), tokenHash := None, expiresAt := None);
              TenantDomain(ctx, EncodeTenant(row)) ==
              Ok(TenantDomain(ctx, EncodeTenant(t)).value.(ownership := Owned, subdomain := subdomain))
  {
    TenantRowRoundTrip(ctx, t);
    if t.ownership == PendingOwner {
      TenantRowRoundTrip(ctx, t.(ownership := Owned, subdomain := Some(subdomain), tokenHash := None, expiresAt := None));
    }
  }
}

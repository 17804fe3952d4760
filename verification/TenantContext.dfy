/** The authenticated principal carried by a request, and the tenant boundary checks. */
module TenantContext {
  import opened Domain

  /** The verified claims of the internal JWT, when the call carries one, and the tenant a
      transport bound to the call without a JWT. */
  datatype Claims = Claims(subject: string, tenant: string)
  datatype Ctx = Ctx(claims: Option<Claims>, bound: Option<string>)

  function SubjectOf(ctx: Ctx): Option<Id> {
    if ctx.claims.Some? && TrimSpace(ctx.claims.value.subject) != ""
    then Some(TrimSpace(ctx.claims.value.subject)) else None
  }

  /** TenantPublicIDFromContext: the claim takes precedence over the binding. */
  function TenantOf(ctx: Ctx): Option<Id> {
    if ctx.claims.Some? && TrimSpace(ctx.claims.value.tenant) != "" then Some(TrimSpace(ctx.claims.value.tenant))
    else if ctx.bound.Some? && TrimSpace(ctx.bound.value) != "" then Some(TrimSpace(ctx.bound.value))
    else None
  }

  /** Ensure fails closed: no authenticated tenant is an error. */
  function Ensure(ctx: Ctx, publicId: Id): Option<Error> {
    var t := TenantOf(ctx);
    if t.None? || t.value == "" then Some(ContextMissing)
    else if t.value != publicId then Some(ContextMismatch)
    else None
  }

  /** VerifyOwnership fails open on a missing tenant. */
  function VerifyOwnership(ctx: Ctx, publicId: Id): Option<Error> {
    var t := TenantOf(ctx);
    if t.None? || t.value == "" then None
    else if t.value != publicId then Some(ContextMismatch)
    else None
  }

  /** Both checks pass together exactly on the authenticated tenant; a binding never widens or
      overrides the tenant claim of a verified token; and a call admitted by Ensure is admitted
      for no other tenant. */
  lemma BoundaryChecks(ctx: Ctx, p: Id, q: Id, other: Option<string>)
    ensures Ensure(ctx, p) == None <==> TenantOf(ctx) == Some(p)
    ensures Ensure(ctx, p) == None ==> VerifyOwnership(ctx, p) == None
    ensures VerifyOwnership(ctx, p) == None <==> TenantOf(ctx) == Some(p) || TenantOf(ctx) == None
    ensures Ensure(ctx, p) == None && Ensure(ctx, q) == None ==> p == q
    ensures ctx.claims.Some? && TrimSpace(ctx.claims.value.tenant) != "" ==> TenantOf(ctx.(bound := other)) == TenantOf(ctx)
  {
  }

  /** Who the caller is: the trimmed subject of the token; the trimmed tenant claim, or the binding when
      there is no such claim; and never a blank. */
  lemma Principal(ctx: Ctx, who: Id)
    ensures SubjectOf(ctx) == Some(who) <==> who != "" && ctx.claims.Some? && TrimSpace(ctx.claims.value.subject) == who
    ensures var claimed := ctx.claims.Some? && TrimSpace(ctx.claims.value.tenant) != "";
            TenantOf(ctx) == Some(who) <==>
              who != "" && ((claimed && TrimSpace(ctx.claims.value.tenant) == who) ||
                            (!claimed && ctx.bound.Some? && TrimSpace(ctx.bound.value) == who))
  {
  }
}

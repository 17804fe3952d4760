# Tenant management: a verified model

A Dafny model of the tenant-management service: tenants, events, memberships, event roles and
invitations, kept in PostgreSQL and changed by concurrent requests. Every RPC is a small program: gate
reads, then a transaction that takes locks, reads under them, writes, and commits or rolls back.

## How the model is built

- **Values** (`Domain.dfy`, `Subdomain.dfy`, `TenantContext.dfy`). Roles and scopes, display names, invitations,
  tenants, event statuses, the subdomain language as the regular expressions of the code, and the tenant
  boundary checks.
- **Tables** (`Tables.dfy`, `AtomicLaws.dfy`). The five tables as maps, the constraints every committed state
  meets (`DbOk`), and `Exec`, the meaning of each transaction run alone.
- **The concurrent service** (`Machine.dfy`). A state holds the committed tables, the requests (gate, statement
  reached, what was read, locks held, private writes; or, outside a transaction, a sweep whose time is read, a read-back after an
  insert) and the clock. A label names a step: a request arrives,
  time passes, a lock is granted, a request acts, a request is aborted. `Next` is total, so every sequence of
  labels is a schedule of any number of requests, interleaved in any order.
- **The proofs over runs.** `Invariant.dfy` states what each request relies on at each statement, `Interference.dfy`
  shows that no commit of another request takes it away, `Refinement.dfy` that a commit or a refusal is what `Exec`
  says at that moment, `Schedules.dfy` what a schedule commits in commit order, `Serialization.dfy` that every schedule is equivalent to
  running its transactions one at a time, `Deadlock.dfy` that waiting never forms a cycle. `Histories.dfy`, `Invitations.dfy`, `Claims.dfy`, `Events.dfy`,
  `Freeze.dfy`, `Race.dfy` and `Schema.dfy` state what follows for every run.
- **The code's own form.** `Service.dfy` and `UseCases.dfy` step through the repositories and use cases imperatively,
  over mutable tables with rollback, and are proved to do what the gates and `Exec` say; `Calls.dfy` tells what each call answers and
  changes from its own arguments alone, check by check, and `Requests.dfy` that every request of every run serves its own call; `Solo.dfy` shows that the concurrent
  service, run by one request, does the same. `Listing.dfy` and `Reads.dfy` treat
  the listings, `Rows.dfy` the encoding of rows, `Runner.dfy` the transaction runner, `TraceLog.dfy` the log handler.

What the database is taken to do: each statement reads the latest committed state; a locking read re-reads its row when
the lock is granted; a lock is granted when it is compatible with the locks others hold, with the row lock modes of
PostgreSQL; an insert occupies the slots of its unique keys and takes a key-share lock on the parent row of a foreign key; a
commit is atomic and releases all locks. `hashtext` and SHA-256 are uninterpreted functions, so the proofs hold for colliding
advisory keys too. The clock is an integer that never goes back. Generated identifiers and tokens are inputs, and may collide.

## What came out

- The owner rule, the permission rule and the life of invitations and tenants hold for every interleaving, although
  `AddTenantMember` takes no advisory lock.
- The archive freeze holds for every request that has not passed its checks when the tenant is archived. It does not hold for event writes
  that have. The insert of an event reads the archived flag by its own snapshot and locks the tenant's key only afterwards, so an
  archival can commit in between and the event is committed into an archived tenant. The update of an event's status
  (internal/tenant/infra/db/event.go:113-148) reads the flag the same way and locks no tenant at all. `ArchiveFreeze.EventLandsInArchiveIff` gives
  the exact condition for both: the archival commits after the guard and, for a creation, before its key-share lock is granted, for a
  status change, before its commit. `ArchiveRaces` builds such runs from any state with a tenant in use, and from the empty database.
- Because of that race commit order alone is not a serial order. There is one for every run all the same: it puts an overtaken event
  write just before the archival that overtook it (`Serialization.Serializable`).
- `AddTenantMember` commits its insert on its own and then reads the membership back by another statement
  (internal/relation/application/relation.go:171, internal/relation/infra/db/membership.go:61-75 and 148-160). When a revoke of the new member
  commits in between, or the request is cancelled there, the caller is told of a failure although the insert took effect:
  `Histories.ReadBackExactly` says exactly when, `Schedules.EffectOnce` that it happens to no other request, and `ArchiveRaces.InsertLosesReadBack` builds
  such a run.
- A registration that fails keeps its sweep: the two are separate statements (`Schedules.RequestsWithoutEffect`).
- A callback that swallows the error of a failed statement loses its whole transaction, and is told so by the commit; one that swallows
  an error that is not PostgreSQL's keeps the nested writes (`Runner.SwallowedErrors`).
- The log handler promises that a top-level name never hides a field it writes itself
  (internal/logging/handler.go:10-14). This holds for attributes, but `WithGroup` does not rename: a group called `severity` hides the
  severity. `TraceLog.GroupNamesAreNotRenamed` is such an entry, and `TraceLog.ReservedKeysAreKept` says exactly when it happens.
- The reserved names in README.md:243 of the repository leave out `auth`, which the code rejects (internal/tenant/domain/subdomain.go:16).
  The model follows the code.
- The display-name CHECK of the schema is weaker than the parser: names with tabs around them pass it and parse back to
  other names. Only names the parser produced are ever stored, which is what keeps rows readable
  (`Rows.NameCheckIsWeaker`, `SchemaHistory.StoredRowsParseBack`).

## Model

| member | source | states |
|---|---|---|
| Schedules.ScheduleKeepsInv | internal/relation/application/relation.go:443-492 | in every state of every schedule all constraints hold, no two requests hold clashing locks, and everything a request has read under a lock still holds; committed rows only move forward |
| Serialization.Serializable | internal/relation/application/relation.go:152-254 | for every interleaving of any number of requests there is an order of exactly its transactions in which, run one at a time and each reading everything but the clock from the tables it finds, they leave the same tables and give the same answers; only a creation refused over a generated identifier may be refused for another reason |
| Schedules.CommitOrder | internal/relation/application/relation.go:443-492 | in commit order every interleaving commits what its transactions commit one at a time, with the same replies, given what each event write's guard read of the archived flag |
| Schedules.EffectOnce | internal/infra/db/transaction.go:39-66 | every request commits at most one transaction: exactly one when it is told it succeeded, none when it failed, except a member insert that failed in its read-back, which has committed exactly one |
| Schedules.RequestsWithoutEffect | internal/tenant/application/tenant.go:204-230 | whatever a request runs that has taken no effect, refused, aborted or unfinished, leaves every table as it was, except the sweep of a registration |
| Schedules.SweepsAreRegistrations | internal/tenant/application/tenant.go:204-206 | only registrations sweep |
| CallContracts.AnswersExactly | internal/relation/application/relation.go:152-441 | each of the thirteen calls, run by itself, is refused over the first of its checks that fails, with that error and no change, or passes them all, succeeds, and makes the one change that its arguments ask for |
| CallContracts.AcceptsExactly | internal/relation/application/relation.go:380-441 | an acceptance succeeds exactly for a known caller of no other tenant who is no member, an owned unarchived tenant, and an open invitation of it with the token's hash; it marks the invitation and stores a staff membership under its name |
| CallContracts.ChangesRoleExactly | internal/relation/application/relation.go:174-197 | a role change stores exactly the role asked for and keeps the name; it is refused over the last owner exactly when all before is in order, the role is not owner and the owners are the target alone |
| CallContracts.GrantsExactly | internal/relation/application/relation.go:199-217 | an event role is stored, with the role asked for and under the event's tenant, exactly for an owner as caller, a member as target and an event in use |
| CallContracts.InvitesExactly | internal/relation/application/relation.go:295-335 | an invitation stores one open staff row with the parsed name, the hash of the token handed out and the expiry now plus the lifetime; the exact condition for it |
| CallContracts.RegistersExactly | internal/tenant/application/tenant.go:195-233 | a registration leaves the tenants whose claims have not lapsed and one pending row with the call's name, plan and public ID, the token's hash and a claim that runs for the lifetime from now; the exact condition for it |
| RequestHistory.RequestsServeTheirCalls | internal/relation/application/relation.go:443-466 | over every run, what a request carries from its gates to its commit is made of the arguments of its own call, and the times it has read lie between its arrival and now |
| RequestHistory.CommitsServeTheirCalls | internal/infra/db/transaction.go:39-66 | every commit of a request makes exactly the change its call asks for, whatever else runs; no other step of it changes a table, a registration's sweep apart |
| RequestHistory.LastOwnerOfCall | internal/relation/application/relation.go:468-492 | over every run, a request is told that the tenant must keep an owner exactly when its call would take the role from the only owner there is at the count |
| RequestHistory.InvitationsCanBeAccepted | internal/relation/application/relation.go:318-332 | an invitation created in any run can be accepted with its token by a non-member for its whole lifetime, whatever runs in between, unless it is closed or the tenant archived |
| RequestHistory.RegistrationsCanBeClaimed | internal/tenant/application/tenant.go:204-230 | a tenant registered in any run can be claimed with its token and a free subdomain for the whole lifetime of the claim, whatever runs in between, unless it has been claimed; it then has the name and plan it was registered with |
| RequestHistory.AcceptancesHappen | internal/relation/application/relation.go:401-435 | there are runs from the empty database in which an owner invites and the guest accepts, both told so |
| Schedules.NextKeepsInv | internal/relation/application/relation.go:454-466 | one step of any kind keeps the invariant |
| Schedules.GateEstablishes | internal/relation/application/relation.go:533-551 | what a gate lets through is an owned tenant, a storable role, a valid name, an event of that tenant |
| Refinement.CommitIsAtomic | internal/relation/application/relation.go:454-466 | a commit makes of the committed state what the transaction, run alone at that moment, makes of it |
| Refinement.RefusalIsAtomic | internal/relation/application/relation.go:454-466 | a refusing statement gives the error that the transaction, run alone at that moment, is refused with |
| Interference.CommitCovered | internal/relation/infra/db/membership.go:97-135 | a commit changes nothing that its own locks do not cover; owners are lost only under the tenant's advisory lock |
| Interference.OtherOwnerStable | internal/relation/application/relation.go:468-492 | after the last-owner check an owner other than the target stays committed, whatever others commit, until the lock holder writes |
| Interference.StageStable | internal/relation/infra/db/membership.go:161-204 | what a request relies on survives every commit of another request |
| Deadlock.WaitsDescend | internal/relation/application/relation.go:449-466 | a rank over advisory, tenant, membership, event, invitation and slot locks strictly decreases along every wait |
| Deadlock.NoDeadlock | internal/relation/application/relation.go:449-466 | in no reachable state do requests wait for each other in a cycle |
| Deadlock.Progress | internal/tenant/application/tenant.go:347-375 | while any transaction runs, some running transaction waits for nobody |
| Deadlock.NextKeepsHeldsOk | internal/tenant/application/tenant.go:456-473 | the locks a request may hold at each statement are bounded as the rank requires |
| SoloRuns.CallsComplete | internal/tenant/application/tenant.go:195-298 | in every reachable state in which nobody holds locks, any call can arrive and complete, with the reply and the tables of the imperative use case |
| SoloRuns.TransactionCompletes | internal/relation/application/relation.go:454-466 | a running transaction that no held lock clashes with runs to its end, with the outcome it has alone |
| AtomicLaws.LastOwnerRule | internal/relation/application/relation.go:468-492 | the check refuses exactly when the target is the sole owner; in a tenant with an owner, passing it means an owner other than the target exists, member or not |
| AtomicLaws.ExecKeeps | internal/relation/infra/db/membership.go:61-146 | every committed transaction keeps every constraint, moves rows forward only, and leaves every tenant but its own as it was |
| AtomicLaws.SweepExact | internal/tenant/infra/db/tenant.go:56-71 | the sweep removes exactly the pending tenants whose claim is expired, and cascades to nothing |
| AtomicLaws.RegisterKeeps | internal/tenant/infra/db/tenant.go:40-54 | a registration keeps every constraint and touches its own tenant only |
| Histories.OwnedTenantsHaveOwners | internal/relation/application/relation.go:188-196 | in every reachable state an owned tenant has a committed owner |
| Histories.LastOwnerExactly | internal/relation/application/relation.go:482-489 | a request is told the tenant must keep an owner exactly when its target is the sole committed owner at the count |
| Histories.ReadBackExactly | internal/relation/infra/db/membership.go:61-75 | a member insert is answered with no such membership exactly when it is committed and the membership is gone again at the read-back, which itself changes nothing |
| Histories.PermissionHolds | internal/relation/application/authorizer.go:39-79 | from the permission check to the commit the caller's committed role grants tenant.write, whatever else commits |
| Histories.CommitsAreAuthorized | internal/tenant/application/tenant.go:336-382 | when an administrative write commits, its caller's role in the state just before still grants tenant.write |
| Histories.StepsTouchOneTenant | internal/tenantctx/tenantctx.go:100-130 | every step but the registration sweep leaves all tenants but one as they were, in every table |
| Histories.StepCommits | internal/infra/db/transaction.go:39-66 | a step leaves the committed state as it is or commits one transaction, whole |
| Histories.SubdomainsResolveForever | internal/tenant/infra/db/tenant.go:153-164 | a subdomain once resolved resolves to the same public ID for ever, and no two tenants share one |
| Histories.TenantsMoveForward | internal/tenant/infra/db/tenant.go:120-143 | an owned tenant is never removed, keeps its identity, name, subdomain and ownership, and stays archived once archived |
| Histories.NoLostUpdate | internal/tenant/application/tenant.go:336-382 | the plan is the one of the last successful contract change in commit order, and the tenant is archived exactly when an archival succeeded |
| InvitationHistory.AcceptanceEffect | internal/relation/application/relation.go:401-435 | an acceptance marks an open invitation and inserts a staff membership, not there before, under the invitation's display name, in one commit, and does nothing else |
| InvitationHistory.AcceptedBy | internal/relation/infra/db/invitation.go:79-89 | an invitation becomes accepted exactly by an acceptance with its token |
| InvitationHistory.AcceptancesMatchMemberships | internal/relation/application/relation.go:401-435 | over every run the acceptance steps, the invitations that get accepted and the memberships those steps insert correspond one to one: each step inserts one membership, not there before, as staff under its invitation's name, and marks that invitation, before it expires |
| InvitationHistory.ClosesAtMostOnce | internal/relation/domain/invitation.go:53-73 | an invitation stays, never changes once closed, and is never both accepted and revoked |
| InvitationHistory.FailuresChangeNothing | internal/relation/application/relation.go:436-440 | a step that ends a request in failure changes no table |
| ClaimHistory.ClaimSucceedsIff | internal/tenant/application/tenant.go:265-292 | a claim succeeds exactly for a known pending tenant of the caller's context, a live matching token and a free subdomain |
| ClaimHistory.ClaimEffect | internal/tenant/infra/db/tenant.go:94-118 | owner row, owned state, subdomain and token consumption appear together, and nothing else changes |
| ClaimHistory.ClaimedAtMostOnce | internal/tenant/domain/tenant.go:76-85 | over every run a tenant is claimed exactly once if it ends up owned, and otherwise never |
| ClaimHistory.OwnershipStep | internal/tenant/application/tenant.go:265-292 | a tenant becomes owned exactly by the commit of a claim of it |
| ClaimHistory.PendingTenantsWait | internal/tenant/application/tenant.go:239-298 | until its claim expires a registered tenant stays as it is, token included, or is claimed |
| ClaimHistory.LiveTokenStillClaims | internal/tenant/application/tenant.go:265-292 | whatever ran in between, a live token still claims its tenant with a free subdomain |
| ClaimHistory.SweepStep | internal/tenant/infra/db/tenant.go:56-71 | a sweep step removes exactly the pending tenants expired at the time the sweep has read, none that a request has locked, and no row of another table |
| ClaimHistory.ExpiredIsRefused | internal/tenant/domain/ownership.go:16-18 | a tenant the sweep would remove is one whose claim is refused at that moment |
| ClaimHistory.OnlySweepsRemoveTenants | internal/tenant/application/tenant.go:204-230 | nothing but the sweep removes a tenant |
| ClaimHistory.ClaimKeepsItsTenant | internal/tenant/infra/db/tenant.go:73-92 | a claim that has checked its tenant finds it unchanged until it commits, sweeps included |
| EventHistory.CreationEffect | internal/tenant/application/tenant.go:456-473 | event creation commits the draft and the creator's event role together; the role is the creator's tenant role at the commit and the event's only one |
| EventHistory.EventsAppearWithCreator | internal/tenant/infra/db/event.go:26-56 | an event appears in no other way |
| EventHistory.EventRolesHaveMembers | migrations/000003_memberships.up.sql:31-36 | in every reachable state an event role belongs to an event of its own tenant and to a live membership there |
| EventHistory.RevocationCascades | internal/relation/infra/db/membership.go:124-135 | revoking a membership removes exactly that member's event roles in that tenant |
| ArchiveFreeze.ArchivedTenantsAreFrozen | internal/relation/application/relation.go:533-576 | once a tenant is archived, only transactions under way and past every check that would refuse them can still change one of its rows, in any table, for the rest of every run |
| ArchiveFreeze.EventLandsInArchiveIff | internal/tenant/infra/db/event.go:26-56 | an event creation or a status change commits into an archived tenant exactly when the tenant was archived after its guard and, for a creation, before its key-share lock was granted, for a status change, before its commit |
| ArchiveFreeze.KeyShareKeepsOpenAlong | internal/tenant/infra/db/event.go:26-33 | a creation that holds its key-share lock on an unarchived tenant keeps it unarchived until it commits, whatever else runs |
| ArchiveFreeze.QuietArchivesStay | internal/tenant/application/tenant.go:353-359 | with no such transaction under way at the archival, the tenant's rows never change again |
| ArchiveFreeze.GateRefusesArchived | internal/relation/application/relation.go:533-551 | a gate read after the archival lets nothing through that could change the tenant |
| ArchiveRaces.CreationSurvivesArchival | internal/tenant/infra/db/event.go:26-33 | from every reachable state with a tenant in use, a creation past its guard and an archival can both succeed, the event committed after the archival |
| ArchiveRaces.TransitionSurvivesArchival | internal/tenant/infra/db/event.go:113-148 | likewise a status change and an archival, the status changed after the archival |
| ArchiveRaces.ArchivedTenantsCanGainEvents | internal/tenant/application/tenant.go:456-473 | there are runs from the empty database in which an archived tenant gains an event |
| ArchiveRaces.ArchivedTenantsCanChangeEvents | internal/tenant/application/tenant.go:481-505 | and runs in which an event of an archived tenant changes its status |
| ArchiveRaces.InsertLosesReadBack | internal/relation/application/relation.go:152-172 | from every reachable state with a tenant in use, a member can be added and revoked so that both take effect and the insert is told that there is no such membership |
| ArchiveRaces.CommittedInsertsCanFail | internal/relation/infra/db/membership.go:148-160 | there are such runs from the empty database |
| SchemaHistory.WritesMeetChecks | migrations/000002_tenant_ownership.up.sql:14-26 | no write issued in any reachable state violates a CHECK constraint |
| SchemaHistory.RegistrationMeetsChecks | internal/tenant/infra/db/tenant.go:40-54 | nor does a registration |
| SchemaHistory.StoredRowsParseBack | internal/tenant/infra/db/tenant.go:195-219 | in every reachable state every stored row parses back to the value that was written |
| Rows.TenantRowRoundTrip | internal/tenant/infra/db/tenant.go:195-219 | a tenant row parses back to what was written, or fails with a context mismatch for another tenant's caller |
| Rows.MemberRowRoundTrip | internal/relation/domain/display_name.go:20-33 | a membership row's role and display name parse back to themselves |
| Rows.InvitationRowRoundTrip | internal/relation/infra/db/invitation.go:135-156 | an invitation row parses back with the state its timestamps say |
| Rows.ClosingCommutes | internal/relation/domain/invitation.go:57-73 | accepting or revoking the parsed invitation is the same as marking the row and parsing it, and is refused exactly when the row is not open |
| Rows.ClaimingCommutes | internal/tenant/domain/tenant.go:76-85 | claiming the parsed tenant is the same as marking the row and parsing it |
| Rows.NameCheckIsWeaker | migrations/000005_membership_display_name.up.sql:11-12 | the display-name CHECK admits names that do not parse, or parse to another name |
| Rows.ParseRole | internal/relation/domain/role.go:36-44 | finds the role of a name, or fails when there is none |
| Rows.ParseOwnershipState | internal/tenant/domain/tenant.go:29-37 | finds the ownership state of a name, or fails |
| Rows.ParseEventStatus | internal/tenant/domain/event.go:25-33 | finds the event status of a name, or fails |
| Rows.NamesAreDistinct | internal/relation/domain/role_enum_string.go:17-27 | the names that roles, ownership states and statuses are stored under, and that no two values share one |
| Domain.WriteScope | internal/relation/domain/permission.go:15-39 | staff issue exactly the five member scopes, owners and administrators these and tenant.write, an unspecified role none; of the storable roles only owner may write |
| Domain.ParseDisplayNameRoundTrip | internal/relation/domain/display_name.go:20-31 | parsing yields valid names, is the identity exactly on them, and asks for a name exactly when only blanks are given |
| Domain.TrimSpaceIsCore | internal/relation/domain/display_name.go:21 | trimming leaves exactly the part from the first non-blank to the last |
| Domain.EightTransitions | internal/tenant/domain/event.go:76-95 | exactly the eight documented transitions; nothing returns to draft, and an archived event only to closed |
| Subdomains.ParseSubdomain | internal/tenant/domain/subdomain.go:25-37 | accepts exactly the lower-case LDH labels of section 2.3.1 of RFC 5890 that are not reserved, not shaped like a public ID, not a reserved word and not a preview slot; returns them unchanged |
| Subdomains.SubdomainPatternMeaning | internal/tenant/domain/subdomain.go:11 | the label pattern matches exactly the lower-case LDH labels |
| Subdomains.RejectedMeaning | internal/tenant/domain/subdomain.go:13-18 | on LDH labels the reject patterns match exactly the excluded names |
| Subdomains.HexRoundTrip | internal/identifier/identifier.go:20-27 | a public ID determines the bytes it was made of |
| Subdomains.PublicIdsAreNotSubdomains | internal/identifier/identifier.go:20-27 | no generated public ID is an accepted subdomain |
| TenantContext.BoundaryChecks | internal/tenantctx/tenantctx.go:75-130 | Ensure admits exactly the authenticated tenant, VerifyOwnership that or no tenant at all, and a binding never overrides a token's claim |
| TenantContext.Principal | internal/tenantctx/tenantctx.go:44-88 | the caller is the trimmed subject, its tenant the trimmed claim or, without one, the binding, and neither is ever blank |
| Listings.ListMemberships | internal/relation/infra/db/membership.go:246-310 | the map-grouped listing equals the plain definition, errors included; under a tenant context every result belongs to that tenant |
| Listings.ListedMeaning | internal/relation/infra/db/membership.go:288-309 | one result per row, in order, each with its own event roles; otherwise an error |
| Listings.RolesOfExactly | internal/relation/infra/db/membership.go:274-284 | a membership carries exactly the event roles its rows name |
| Listings.RolesAreConserved | internal/relation/infra/db/membership.go:274-309 | every event-role row ends up with exactly one membership |
| Listings.ListOpenInvitations | internal/relation/infra/db/invitation.go:49-69 | every row reconstructed in order, or the error of the first that does not parse |
| Listings.ListEvents | internal/tenant/infra/db/event.go:83-111 | likewise, filling an array; under a tenant context every result belongs to that tenant |
| TenantReads.MembershipsAreIsolated | internal/relation/application/relation.go:256-293 | listing memberships, gate, queries and reconstruction together, gives a caller the same answer whatever the tables hold of other tenants and however the database breaks ties, each query with its own snapshot |
| TenantReads.MembershipsAreShown | internal/relation/infra/db/membership.go:246-310 | past its gate the listing never fails on what the tables hold: it shows each membership of the tenant once, in the order of joining, or the one of the user asked for, as stored, with exactly its own event roles in the order of the events |
| TenantReads.InvitationsAreIsolated | internal/relation/application/relation.go:337-344 | listing invitations likewise |
| TenantReads.InvitationsAreShown | internal/relation/infra/db/invitation.go:49-69 | it shows exactly the open invitations of the tenant, as stored, in the order of creation |
| TenantReads.EventsAreIsolated | internal/tenant/application/tenant.go:521-530 | listing events likewise, cap included |
| TenantReads.EventsAreShown | internal/tenant/infra/db/event.go:83-111 | it shows events of the tenant, as stored and in creation order, archived ones only when asked, stops at the cap, and leaves out only events that come after every one shown |
| TenantReads.ReadGatesExactly | internal/relation/application/relation.go:256-293 | the reads are refused over the first of their checks that fails, and are otherwise let through to the tenant named, or for a user to the authenticated one |
| TenantReads.ReadGatesAreIsolated | internal/relation/application/relation.go:516-526 | a read gate decides the same on two databases that agree on the caller's tenant, and lets the caller through to that tenant only |
| Runner.RunInTransaction | internal/infra/db/transaction.go:39-66 | one transaction for any tree of nested calls; its effects are kept exactly when the outermost callback returns nil, no statement of it failed and the commit succeeds; the error returned tells to retry exactly for a callback error with SQLSTATE 40001 or 40P01 |
| Runner.Execute | internal/infra/db/transaction.go:86-95 | a repository call goes to the transaction its context carries, and to the pool otherwise |
| Runner.CallsJoinTheTransaction | internal/infra/db/transaction.go:34-42 | every call made with a handed context, at any depth, is part of the one transaction, in order, and no other is; all of them are kept or none, none as soon as one statement failed, whatever the callbacks make of its error |
| Runner.SwallowedErrors | internal/infra/db/transaction.go:40-42 | a nested call that fails is not undone by itself: when its caller goes on and returns nil, its writes are kept exactly when no statement failed on the way, and otherwise the commit fails |
| Runner.NestingIsGrouping | internal/infra/db/transaction.go:40-42 | nesting with errors passed on means the same as no nesting |
| Runner.AsPgFindsFirst | internal/infra/db/transaction.go:68-78 | the PostgreSQL error found in an error tree is the first one, from the outside in and left to right, and is found when there is any |
| Runner.RetryIsReported | internal/infra/db/transaction.go:49-78 | the caller is told to retry exactly when that error is 40001 or 40P01, unless the callback said so itself; a failed rollback is reported and the callback's own errors stay available |
| TraceLog.TraceHandler.Handle | internal/logging/handler.go:293-319 | cached or replayed, with or without a span, the entry written is the one the calls stand for |
| TraceLog.TraceHandler.WithAttrs | internal/logging/handler.go:321-331 | a derived handler stands for one more call, shares no storage, and keeps its cache in agreement with its operations |
| TraceLog.TraceHandler.WithGroup | internal/logging/handler.go:333-339 | likewise for a group; an empty name changes nothing |
| TraceLog.TraceHandler.AppendOp | internal/logging/handler.go:341-348 | the new operation list is fresh |
| TraceLog.RenameReservedAttrs | internal/logging/handler.go:199-212 | renames exactly the colliding attributes |
| TraceLog.RenameReservedRecord | internal/logging/handler.go:214-236 | the same for a record, which is rebuilt only when something collides |
| TraceLog.ReplayMeansBody | internal/logging/handler.go:275-287 | replaying the recorded operations puts every attribute where the calls say |
| TraceLog.EntryByReplay | internal/logging/handler.go:298-318 | the cached handler and the replay over the trace fields both give the entry of the calls |
| TraceLog.AttributesReachTheEntry | internal/logging/handler.go:293-339 | every attribute reaches the entry with its value, under exactly the groups open when it was given, renamed only when it is reserved and outside every group |
| TraceLog.RenamedNotReserved | internal/logging/handler.go:177-197 | which keys are reserved, and that renaming one gives a key that is not, and keeps the value |
| TraceLog.SpanAddsThreeFields | internal/logging/handler.go:298-318 | under a span the entry is the span-free entry and exactly three more top-level fields, the trace's resource name, the span and the sampling flag, the only ones of their keys exactly when the first group opened has none of their names |
| TraceLog.ReservedKeysAreKept | internal/logging/handler.go:10-14 | a reserved key appears among attributes exactly when the first group opened has that very name and is not empty |
| TraceLog.AttributesTakeNoWrittenKey | internal/logging/handler.go:177-197 | this covers every key the handler writes itself |
| TraceLog.GroupNamesAreNotRenamed | internal/logging/handler.go:333-339 | a group named severity hides the severity |
| TraceLog.SeveritiesCoverLevels | internal/logging/handler.go:159-175 | each named level has its own severity, levels in between that of the level below, and a higher level is never less severe |
| TraceLog.BuiltInFields | internal/logging/handler.go:115-175 | the record's own fields, renamed for Cloud Logging, in order |
| Service.AloneKeeps | internal/tenant/application/tenant.go:195-298 | whatever the call, run by itself, every constraint holds afterwards |
| UseCases.Services.WritableTenant | internal/relation/application/relation.go:518-551 | the gate of the model, computed by the table reads of the code |
| UseCases.Services.WritableEvent | internal/relation/application/relation.go:553-577 | the event gate, then the gate of its tenant |
| UseCases.Services.RequireTenantWrite | internal/relation/application/authorizer.go:39-79 | the permission verdict from the caller's stored role |
| UseCases.Services.KeepAnotherOwner | internal/relation/application/relation.go:468-492 | the last-owner verdict from the target's stored role and the count |
| UseCases.Services.AddTenantMember | internal/relation/application/relation.go:152-172 | reply and tables are those of its one-at-a-time meaning, which CallContracts.AnswersExactly tells from the arguments |
| UseCases.Services.ChangeTenantRole | internal/relation/application/relation.go:174-197 | likewise |
| UseCases.Services.GrantEventRole | internal/relation/application/relation.go:199-217 | likewise |
| UseCases.Services.RevokeRole | internal/relation/application/relation.go:219-254 | likewise |
| UseCases.Services.CreateTenantInvitation | internal/relation/application/relation.go:295-335 | likewise |
| UseCases.Services.RevokeTenantInvitation | internal/relation/application/relation.go:346-378 | likewise |
| UseCases.Services.AcceptTenantInvitation | internal/relation/application/relation.go:380-441 | likewise |
| UseCases.Services.StartTenantRegistration | internal/tenant/application/tenant.go:195-233 | likewise, the sweep first |
| UseCases.Services.ClaimTenantOwnership | internal/tenant/application/tenant.go:239-298 | likewise |
| UseCases.Services.AdministerTenant | internal/tenant/application/tenant.go:336-382 | locked checks, permission, mutation and update are those of the one-at-a-time meaning |
| UseCases.Services.ChangeTenantContract | internal/tenant/application/tenant.go:309-317 | likewise |
| UseCases.Services.ArchiveTenant | internal/tenant/application/tenant.go:322-326 | likewise |
| UseCases.Services.CreateEvent | internal/tenant/application/tenant.go:425-479 | likewise |
| UseCases.Services.TransitionEventStatus | internal/tenant/application/tenant.go:481-505 | likewise |
| UseCases.TransitionsAlone | internal/tenant/domain/event.go:66-95 | run one at a time, events change status along the eight transitions only |

## Left out

- Connect and HTTP transports, generated code, policy and error-code tables: plumbing over libraries. JWT verification: the context is an optional subject, an optional tenant claim and an optional bound tenant.
- `CreateTenant` of the tenant repository: no use case calls it, so it is no step.
- The membership, invitation and tenant values that use cases return after their writes, and the tokens they hand out: replies are success or an error. The read-back of `AddTenantMember` is a step of its own; those of the role changes run inside their transactions, whose locks keep the membership.
- The read-back reads the membership; that it also lists the member's event roles is not modelled in it.
- The repositories of `Service.dfy` take no locks: they serve the use cases run alone; the locks are those of the machine.
- The clock is read together with the invitation or tenant row whose expiry it decides: the row is locked from before that step to the commit, so a clock read later is the same step taken later.
- `created_at` and `joined_at` in the transactions; the listings take insertion times as a parameter.
- UseCases.TransitionsAlone: holds for calls run one at a time only, because the read and the write of a status are separate statements: two requests can each pass the check on the same status.
- The order in which one multi-row delete locks its rows: a sweep is one atomic statement that waits until no request has locked a tenant it deletes, so deadlocks between two sweeps are outside the model.
- The insert of a pending tenant is one atomic step: it waits for nobody, since generated IDs clash with nobody in practice; a clash is reported as the code reports it.
- A statement that fails ends its request at once, and rollback always succeeds in the concurrent model; `Runner.dfy` covers failing begins, commits and rollbacks, and callbacks that go on after an error.
- SQL text, the driver, the pool, telemetry, VARCHAR lengths, UUID syntax, the text of error messages.
- Random generation, SHA-256, base64 and constant-time comparison: fresh values are inputs, and the hash is an uninterpreted function.
- Strings are sequences of Unicode characters; invalid UTF-8 is not modelled.
- The zero claim that the code builds for an owned tenant: its absent columns stay absent in the model.
- Subdomains.ParseSubdomain: takes the verdict of the regular-expression engine from the definition of matching; how the engine matches is not modelled.
- JSON escaping, time formatting, lazy values and attributes with an empty key in the log handler; `Enabled`, `NewHandler` and `ParseLevel`.
- Migrations as programs: only the final constraints.

# Gospa: a verified model of the workspace lifecycle

This project models how a Gospa deployment is installed, staffed and used, and
proves what its handlers keep between them:

- the four tables (workspace, companies, contacts, workspace_grants) and the
  ZITADEL directory, shared by every handler;
- the provisioning saga with its compensation, the single-flight slot and the
  process restarts around it;
- the team, contact and company handlers;
- the authentication gate, the authorisation middleware and the browser
  configuration;
- five self-contained algorithms: the ticket listing, the search highlighter, the
  avatar hash, the token watcher and the last-seen throttle.

## How it is built

Every handler that issues several statements or remote calls is a *step function*:
one statement, remote call or lock operation at a time, with an outcome that may be
a failure. Three readings share these definitions.

1. **Interleaved.** `TeamMachine` runs any number of team handlers, archive handlers
   and authorised requests side by side, one statement per step; `Gate` does so for
   requests and activations, one load, lock or assignment per step. The concurrency
   claims (`LastAdmin`, `Suspension`, `ArchiveRace`, `InviteConservation`,
   `AdminSafety`, the gate cache) are about all runs of these machines.
2. **Atomic.** A `Run...` function takes the steps of one handler in a row; the
   request, whose three steps are written out once more as `Authz.RunRequest`, has
   `Authz.RunRequestIsItsSteps`.
   `Lifecycle` is one deployment over its whole life: install requests and the saga
   step by step, restarts with process death, and handlers one at a time behind the
   gate. `Accounts` and `Phases` hold its invariant, `Lifetime` and `Reachability` the
   theorems about its runs.
3. **As objects.** `Backend`, `TeamService`, `Orchestrator`, `Middleware`,
   `ServiceHandlers` (and the classes in `Gate`, `Contract`, `PatWatch` and `Tickets`)
   are the handlers as the source writes them, with fields that methods update. Each
   method is proved equal to the uninterrupted run of its steps, so the theorems
   about the machines are about these bodies.

What a handler answers and what it leaves behind is stated a second time in terms of the
request, the rows and the outcomes alone, without the step functions (the `...Meaning`,
`...Answers` and `...Iff` lemmas), and `Access` and `Edits` connect the handlers with each
other: what a change of role, a suspension or an invite means for the next request, and
that after any calls each field holds what the last call that set it made of it.

A failing statement or call has no effect; ids handed out by the database and by
ZITADEL are non-empty and new. `Lifecycle` takes a flag that makes the eligibility
read and the single-flight slot of an install request one step. The theorems of
`Lifetime` hold with that flag, and also for the code as written as long as no two
install requests are past their eligibility read at the same time (`Paced`).

## What turned out not to hold as stated

- The last-admin guard counts and then writes in separate statements. The workspace
  keeps an active admin if and only if at most one removal is between loading the
  grant and writing it (`LastAdmin.SafeIffOneWindow`).
- The same guard looks at the role alone, so it also refuses to demote an admin who
  is not active while just one is; `Team.RefusedAsLastAdminIff` says exactly whom it
  refuses.
- Install reads eligibility before it takes the slot. Ready is absorbing if and only
  if the two are one step or install requests do not overlap
  (`Reachability.ReadyIsAbsorbingIff`); otherwise a request with a stale read moves a
  ready workspace back to provisioning.
- Compensation removes the organisation and nothing else. A failed Run leaves the
  tables as they were exactly under `Install.FailedRunIsCleanIff`; once it has left its
  MSP row behind (`Reachability.FailedInstallWedges`) no installation can succeed, as
  `Reachability.InstallableIff` says exactly, for every moment of a deployment's life.
- Statement by statement, ArchiveContact can slip between the two inserts of an
  invite, and Wrap then admits an archived contact. No run ends that way if and only
  if the two handlers never overlap on a contact (`ArchiveRace.SafeIffNoOverlap`).
- So the two guards are not independent: somebody can always administer the workspace,
  an active MSP contact whom Wrap lets through, if and only if there are no removals,
  or one at a time and no such overlap (`AdminSafety.SafeIff`). An archived contact
  that signs in as an admin is counted, and the last real one can then be suspended.
- An invite whose grant insert fails leaves its contact behind, so that a refused
  invite leaves the tables alone exactly under `Team.RefusedInviteIsCleanIff`; the
  address can then not be invited again (`Team.LeftoverBlocksRetry`).
- Reactivating undoes a suspension only of a member who was active
  (`Team.ReactivateUndoesSuspendIff`).
- The client-name counts sum to the store size exactly when no client is named like
  a property of Object.prototype (`Tickets.ClientCountsIff`).
- The highlighter marks a text rightly for every needle that keeps its length if and
  only if every unit of the text is lowered to one unit (`Highlight.MarksRightIff`); in
  such a text a needle that gets longer is marked rightly only when it is not found at
  all (`Highlight.SingleMarksRightIff`). Every needle is marked rightly if and only if,
  besides, no longer lowering of a unit occurs in the lowered text
  (`Highlight.AllNeedlesRightIff`).
- In a table that negates the comparator for the descending direction, paused rows
  stay at the bottom both ways only in a column that does not mix
  (`Tickets.PausedLastBothWaysIff`).

Where the code and its own documentation disagree, the model follows the code:
the comment on InviteMember speaks of one transaction (internal/team/handler.go:76-79)
but the inserts are separate statements; docs/operations.md:195-212 and 345-356
describe a startup recovery that cmd/app/main.go:210-216 rules out; the comment on
shouldTouch (internal/authz/middleware.go:191-194) lets two concurrent calls both say
yes, which its mutex prevents; cmd/app/main.go:244-245 expects Activate to fail with
ErrMiddlewareNotMounted, which the gate does not do.

## Model

| member | source | states |
|---|---|---|
| Schema.MspId | db/queries/companies.sql:81-86 | The MSP lookup finds a row marked as owner whenever there is one. |
| Schema.ContactOf | db/queries/workspace_grants.sql:19-38 | Resolving an identity finds a contact that holds it, and fails only when nobody does. |
| Schema.ContactOfIsUnique | db/migrations/00005_create_contacts.sql:55-57 | With the identity index, resolving an identity can only find its one holder. |
| Schema.AddContactKeepsSchema | db/queries/contacts.sql:1-20 | An insert that no index objects to leaves every foreign key and unique index intact. |
| Schema.ArchiveKeepsSchema | db/queries/contacts.sql:70-74 | Archiving a contact breaks no foreign key or unique index. |
| Team.RunGuardMeaning | internal/team/handler.go:179-304 | An uninterrupted ChangeRole, SuspendMember or ReactivateMember writes exactly when no statement fails, the member exists and its guard does not object, and then the one grant has the new role or status and keeps the other; it is NotFound exactly when the contact or the grant is missing, FailedPrecondition exactly when the guard objects, and writes nothing then |
| Team.RefusedAsLastAdminIff | internal/team/handler.go:189-206 | With an active admin around, exactly these are refused for the last admin's sake: whoever would take the last active admin away, and whoever demotes an inactive admin while just one is active. |
| Team.HarmlessDemotionIsRefused | internal/team/handler.go:190-194 | A concrete workspace in which demoting an admin who never signed in is refused although the active admins would stay the same. |
| Team.ReactivateUndoesSuspendIff | internal/team/handler.go:218-268 | Suspending and then reactivating restores the tables if and only if the member was active; a member who never signed in comes back active. |
| Team.ReactivatedUnseen | internal/team/handler.go:218-268 | A concrete member who had never signed in: suspended and reactivated, the grant is active. |
| Team.RunInviteMeaning | internal/team/handler.go:80-174 | Exactly when an uninterrupted invite commits and with which refusal it fails otherwise; on a commit a contact with the new identity and a pending grant of the requested role; the minted user survives exactly a commit or a failed removal. |
| Team.RunInviteAnswers | internal/team/handler.go:80-174 | InvalidArgument, AlreadyExists and success each if and only if its condition on the request, the MSP's active addresses and the minted identity; a success adds exactly that contact, that pending grant and that user |
| Team.RefusedInviteIsCleanIff | internal/team/handler.go:147-166 | A refused invite leaves the tables as they were if and only if its contact insert did not take effect. |
| Team.RefusedInviteLeavesContact | internal/team/handler.go:147-166 | A concrete refused invite whose contact stays behind. |
| Team.LeftoverBlocksRetry | internal/team/handler.go:99-111 | After a failed grant insert, inviting the same address again is refused as a duplicate. |
| Team.PromotionsOnlyAdd | db/queries/workspace_grants.sql:50-58 | Promotions and reactivations never take an active admin away. |
| Team.WriteSparesOthers | db/queries/workspace_grants.sql:50-58 | A role or status write leaves every other active admin active. |
| TeamMachine.StepKeepsSchema | internal/team/handler.go:147-166 | Every statement of every interleaved team handler, archival and request keeps the foreign keys and unique indexes. |
| TeamMachine.StepKeepsRows | internal/contacts/handler.go:167-186 | No step deletes a contact or a grant or changes a contact's identity. |
| TeamMachine.AnswersAreEarned | internal/authz/middleware.go:85-189 | Over every interleaving: requests bypass exactly on unguarded paths and are unauthenticated exactly without an identity; whoever is admitted is a member with that identity, on a listed procedure, with the role it asks for |
| LastAdmin.StepKeepsAdmins | internal/team/handler.go:189-206 | With at most one open window, a step keeps an active admin and keeps every pending removal covered by another one, even when its loaded grant is stale. |
| LastAdmin.LastAdminStays | internal/team/handler.go:218-246 | Over every interleaving of team handlers, archivals and sign-ins in which at most one removal is inside its window, at least one active admin remains. |
| LastAdmin.TwoWindowsLoseTheLastAdmin | internal/team/handler.go:295-304 | A concrete run: two suspensions count two admins before either writes, and none is left. |
| LastAdmin.SafeIffOneWindow | internal/team/handler.go:179-304 | No run loses the last admin if and only if the bound on open windows is at most one. |
| Suspension.SuspensionHolds | internal/authz/middleware.go:130-155 | From SuspendMember's write until ReactivateMember writes, no in-flight sign-in, role change or other handler lifts the suspension, and every request of that member resolved meanwhile is refused. |
| ArchiveRace.StepKeepsSound | internal/contacts/handler.go:172-184 | Without an overlap, each statement keeps every member's contact active, every stored invite's contact active and every cleared archival's contact without a grant. |
| ArchiveRace.NoArchivedCaller | internal/authz/middleware.go:111-187 | Over every interleaving without an overlap of an archival past its check and an invite before its grant on one contact, no archived contact holds a grant and every admitted request belongs to an active contact. |
| ArchiveRace.ArchiveCanRaceAnInvite | internal/team/handler.go:147-166 | A concrete run from an empty machine: the invited contact is archived between the two inserts, gets its grant, and Wrap admits it. |
| ArchiveRace.SafeIffNoOverlap | internal/contacts/handler.go:172-184 | No run ends with an archived grant holder if and only if such overlaps are bounded by zero. |
| InviteConservation.StepKeepsAccounts | internal/team/handler.go:119-173 | Each statement of each interleaved handler keeps every minted user accounted for: held by one invite, committed, removed, or recorded as a failed removal. |
| InviteConservation.InvitesConserveUsers | internal/team/handler.go:119-173 | At every moment the live invited users are, without overlap, those of committed invites, failed removals and invites under way; committed users are exactly those with contact and grant; RemoveUser ran once for each uncommitted finished invite and never for another. |
| InviteConservation.InvitesConserveCounts | internal/team/handler.go:119-173 | Once all invites are over: live minted users = invites with contact and grant + failed removals. |
| AdminSafety.StepKeepsPlaced | internal/team/handler.go:119-173 | Whatever overlaps, each statement keeps every member at the MSP company with a live ZITADEL identity; the only identity a clean-up removes belongs to no member. |
| AdminSafety.OneWindowKeepsWorkingAdmin | internal/team/handler.go:189-206 | Over every interleaving with at most one removal in its window and no archival overlapping an invite, some unarchived MSP contact with a live identity gets through to every admin-only procedure of any policy. |
| AdminSafety.NoRemovalKeepsWorkingAdmin | internal/contacts/handler.go:172-184 | Without removals the same holds however archivals and invites overlap: an admin's contact is never archived. |
| AdminSafety.OverlapLosesEverybody | internal/contacts/handler.go:172-184 | A concrete run with one removal and one overlap: an invited admin is archived between the two inserts, signs in and is counted, and the suspension of the other admin leaves nobody. |
| AdminSafety.SafeIff | internal/authz/middleware.go:111-187 | No run with at most k open windows and j overlaps ends without a working admin if and only if k is zero, or k is one and j is zero. |
| Authz.ConnectProcedureShape | internal/authz/middleware.go:211-222 | A path counts as a Connect procedure if and only if it is a slash, a segment with a dot, a slash and anything. |
| Authz.AdmissionIff | internal/authz/middleware.go:111-187 | Exactly who is admitted: the holder of an identity with an unsuspended grant, on a listed procedure, as an admin where the policy reserves it. |
| Authz.RequestAnswers | internal/authz/middleware.go:85-189 | Each of the nine answers if and only if its condition on the path, the public list, the contacts, the grants and the policy; a pending grant becomes active exactly when its member is resolved and the write succeeds, and nothing else changes |
| Access.ChangedRoleDecides | internal/team/handler.go:176-212 | After ChangeRole the member's next request is let through on a guarded procedure if and only if they are not suspended and the policy opens it to the new role |
| Access.SuspensionDecides | internal/team/handler.go:214-268 | After SuspendMember no guarded procedure is served to the member, after ReactivateMember exactly those of their role |
| Access.InviteDecides | internal/team/handler.go:80-174 | After an invite the minted identity is let through exactly where the policy opens a procedure to the invited role, and its first guarded request makes the grant active if the write succeeds |
| Throttle.MemoryIsLatestTouch | internal/authz/middleware.go:195-204 | The throttle's memory is the latest touch of each contact. |
| Throttle.TouchesAreSpaced | internal/authz/middleware.go:195-204 | With a clock that never goes back, consecutive touches of a contact are at least one throttle period apart. |
| Throttle.TouchBound | internal/authz/middleware.go:195-204 | k touches of one contact span at least k - 1 throttle periods. |
| Throttle.RecentTouch | internal/authz/middleware.go:157-164 | Every request that reaches the throttle leaves with a recorded touch less than one period old. |
| Throttle.ContactsAreIndependent | internal/authz/middleware.go:195-204 | Removing the other contacts' requests changes no contact's touches. |
| Contract.ScopesIdentify | internal/zitadelcontract/contract.go:56-85 | Scopes determine the organisation and the audience they were built from, and the two kinds are never confused. |
| Contract.ServedScopesEnd | internal/publicconfig/resolver.go:76-102 | With both identifiers persisted, the browser gets the static scopes followed by exactly the organisation scope and the audience scope. |
| Contract.ServedMeaning | cmd/app/main.go:46-74 | For any row, what the browser is served column by column: the persisted organisation, client and issuer where there is one, the static ones elsewhere or when the read failed, and the two scopes spelled out |
| Contract.PublicConfig.Mutate | internal/publicconfig/resolver.go:77-98 | The mutator changes each field exactly as the provider's value asks, appends the two scopes that are not empty, and leaves everything when the read fails; the result is the merged configuration |
| Gate.StepKeepsCoherent | internal/authgate/gate.go:64-89 | Every load, lock and assignment keeps the mutex exclusive and the cache in step with the pointer it was built for. |
| Gate.CacheRefinesRebuilding | internal/authgate/gate.go:64-89 | Under any interleaving of requests and activations, each request ends exactly as if its chain had been rebuilt from the verifier it loaded. |
| Gate.NoPassThroughOnceActive | internal/authgate/gate.go:103-114 | After a successful Activate, no request that loads the pointer later is passed through or turned away unguarded. |
| Gate.GuardedNeverPasses | internal/authgate/gate.go:64-89 | At any moment of any interleaving, before or after activations, no request for a private Connect procedure has passed unauthenticated and no other request has been turned away |
| Gate.ChainsComeFromActivations | internal/authgate/gate.go:80-114 | In every run the verifier in force, and every chain a request went through, was built for the issuer and audience of one activation, neither empty |
| Gate.ActivationTakesForce | internal/authgate/gate.go:91-114 | The latest activation wins: a request that loads the pointer next is served by its chain, whatever happens afterwards |
| Gate.AuthGate.Middleware | internal/authgate/gate.go:64-89 | One request through the object with its cache fields: turned away if and only if the gate is inactive and the path is a private Connect procedure, passed through exactly for the other paths of an inactive gate, and otherwise served by the chain of the verifier in force |
| Gate.AuthGate.Activate | internal/authgate/gate.go:103-114 | Succeeds exactly with both arguments and a working discovery, and then replaces the verifier; otherwise it leaves it. |
| Lifecycle.AdvanceMovesSlot | internal/install/handler.go:99-131 | A step gains the slot only when it is free, gives it back only from its owner, and starts a Run only together with a provisioning mark. |
| Lifecycle.SingleFlight | internal/install/handler.go:99-141 | In every run, with or without atomic admission: the flag is set exactly when one thread owns the slot, at most one Run is in progress, and as many Runs started as provisioning marks succeeded. |
| Lifecycle.InstallersAreAuthorised | internal/install/handler.go:75-86 | In every run, whoever is past the eligibility read, owns the slot or has run came with the right token and a valid form, and the two refusals for lack of them are exact |
| Lifecycle.NothingWithoutToken | internal/install/handler.go:72-86 | As long as no request carries both, no run changes the workspace row, the tables or ZITADEL, or activates the gate |
| Lifecycle.BootedMeaning | cmd/app/main.go:254-285 | A new process refuses to start exactly on a ready row with an incomplete contract or without discovery, and its gate is active exactly on a ready row otherwise, for the issuer and audience on it |
| Lifecycle.RestartAfterRun | cmd/app/main.go:180-186 | The eager activation at the next start takes up the verifier that the OnReady hook of a successful Run installed |
| Install.RunSagaMeaning | internal/install/orchestrator.go:93-235 | The saga succeeds exactly when no step fails; for every combination of failures the resulting tables, workspace row and directory are given in closed form: the first failing step recorded, the seven contract columns by the outcomes that supplied them, the inserted rows left, the organisation and its users removed if that succeeds |
| Install.SuccessfulRun | internal/install/orchestrator.go:127-225 | A Run that succeeds leaves exactly the MSP row with the new organisation, its admin with the new identity, an active admin grant, the seven columns and ready |
| Install.InstalledIsServed | internal/install/orchestrator.go:160-182 | After it the browser is served the organisation, the client id and the issuer of this installation, and the scopes of its organisation and project |
| Install.FailedRunIsCleanIff | internal/install/orchestrator.go:101-219 | A failed Run leaves the tables as they were if and only if its MSP row was not inserted; the row keeps naming the failed Run's organisation if and only if the contract had been persisted, and that organisation is live exactly when its removal failed. |
| Phases.RunStepOk | internal/install/orchestrator.go:99-235 | Every step of the saga, successful or failing, leads from one annotated point to the next: what exists, who owns the new organisation, what is persisted. |
| Phases.MakeCompanyStep | db/migrations/00004_extend_companies_workspace_owner_and_address.sql:20-22 | The MSP row is inserted only when there is none, and takes over the organisation the saga holds. |
| Phases.MarkReadyStep | db/queries/workspace.sql:47-53 | Ready is reached only with the MSP row, its live organisation and an active admin in place. |
| Phases.StepKeepsInv | internal/install/handler.go:88-141 | Every request, saga step, handler call and restart keeps the invariant of the deployment. |
| Accounts.HandledKeepsInstalled | internal/companies/handler.go:67-355 | No handler call, whatever fails in it, disturbs an installed workspace: organisations accounted for, members in good standing, an active admin. |
| Accounts.GuardedKeepsAdmins | internal/team/handler.go:179-304 | Run one at a time, the guarded handlers never take the last active admin, and touch nothing but existing grants. |
| Accounts.InviteKeepsInstalled | internal/team/handler.go:119-173 | An uninterrupted invite with any failures keeps an installed workspace installed. |
| Lifetime.ReadyHasWorkingAdmin | internal/install/orchestrator.go:194-225 | In every reachable ready state some active MSP contact with a live identity gets through to every admin-only procedure of any policy. |
| Lifetime.NoArchivedCaller | internal/authz/middleware.go:111-187 | In every reachable state whoever Wrap admits is an unarchived contact of the MSP company, although it never reads the archive mark. |
| Lifetime.OrgsConserved | internal/install/orchestrator.go:99-225 | In every reachable ready state each row has its own live organisation, the MSP row's is the workspace's, and live organisations = rows + failed removals + failed inserts. |
| Lifetime.MspRowIsProtected | db/queries/companies.sql:21-57 | No handler but UpdateWorkspaceCompany changes the MSP row, and none its organisation, owner mark or archive mark. |
| Lifetime.CompanyEditsStayLocal | internal/companies/handler.go:162-326 | An update, archival or restoration changes nothing before ready, then at most the row it is about, never its organisation or owner mark, archive marks only by archiving and restoring, and the MSP row only by its own handler. |
| Lifetime.ContactEditsStayLocal | internal/contacts/handler.go:90-186 | A contact handler changes at most one contact and no other table: no identity or company ever, an archive mark only by ArchiveContact without a grant, an email only of an active contact. |
| Edits.FieldIsReplayed | internal/companies/handler.go:162-326 | After any handler calls, a customer's form and archive mark, the MSP's profile, a contact's address and archive mark and a member's role and status each have the value that replaying the calls which set it gives, whatever the calls in between |
| Edits.LastSetterStands | internal/team/handler.go:201-265 | And that is what the last call that set the field made of it |
| Edits.CreationsAppear | internal/contacts/handler.go:90-130 | A contact, company or invite that nothing stands against is there afterwards with the given values |
| Lifetime.GateAgreesWithRow | cmd/app/main.go:254-285 | Over any installs, retries and restarts: an active gate means ready and checks exactly the persisted issuer and audience, the audience is the persisted project, and the browser is served the persisted organisation, client and issuer with the scopes of the organisation and of exactly that audience last |
| Lifetime.OnReadyActivates | cmd/app/main.go:180-186 | In every reachable state, the OnReady hook with a working discovery and a persisted issuer activates the gate for the issuer and audience on the row |
| Lifetime.RestartKeepsTheGate | cmd/app/main.go:254-277 | Whenever the gate is active, a new process that reads the row and discovers the issuer takes up the same verifier |
| Lifetime.InstallTransitions | db/queries/workspace.sql:25-60 | The only transitions are from not_initialized or failed to provisioning and from provisioning to ready or failed; ready is absorbing. |
| Lifetime.StuckHasCause | cmd/app/main.go:210-216 | At most once in a deployment's life is an installation stranded, by a failed MarkWorkspaceFailed or a death in the middle of a Run; between Runs the row says provisioning if and only if that has happened. |
| Lifetime.SecondRunNeverReady | internal/install/orchestrator.go:194-200 | A Run that starts with an MSP row present never reaches ready, nor does anything after it. |
| Lifetime.NeverReady | internal/install/handler.go:88-97 | A workspace that is stuck in provisioning or wedged by a leftover MSP row stays that way over every run. |
| Lifetime.ListingAgreesWithGrants | db/queries/workspace_grants.sql:80-97 | In every reachable state the three-way join returns every grant exactly once, and as many active admins as CountActiveAdmins. |
| Reachability.CleanInstallSucceeds | internal/install/orchestrator.go:93-235 | From any state that is neither wedged nor stuck, between Runs or in the middle of one, whoever has the slot, a run reaches ready in the running process, without a restart and with one request at a time. |
| Reachability.InstallableIff | internal/install/handler.go:88-97 | At any moment, ready can still be reached if and only if the state is neither wedged (before ready, an MSP row that no Run in progress inserted) nor stuck (provisioning, and no Run with work left). |
| Reachability.FailedInstallWedges | internal/install/orchestrator.go:193-219 | A concrete run from a fresh deployment to a failed state with an MSP row left over, a row that names a removed organisation, and no way to ready. |
| Reachability.AsWrittenLeavesReady | internal/install/handler.go:88-106 | A concrete run of the code as written in which two overlapping requests move a ready workspace back to provisioning. |
| Reachability.ReadyIsAbsorbingIff | internal/install/handler.go:88-106 | Ready is absorbing over all runs if and only if the eligibility read and the slot are one step or at most one install request at a time is past its read. |
| Services.UpdateContactKeepsSchema | db/queries/contacts.sql:53-68 | A contact update that succeeds keeps every index and foreign key. |
| Services.NewCompanyKeepsSchema | db/queries/companies.sql:1-19 | Inserting a company with a new organisation, and an MSP row only when there is none, keeps the schema. |
| Services.EditedCompanyKeepsSchema | db/queries/companies.sql:21-57 | Editing a row without touching its organisation or owner mark keeps the schema. |
| Services.RestoreUndoesArchive | internal/companies/handler.go:204-263 | Restoring undoes archiving and archiving undoes restoring. |
| Services.EmailReservedUntilArchived | internal/contacts/handler.go:90-186 | An email is refused to a second contact of its company until the first is archived, and accepted then. |
| Services.CreateContactMeaning | internal/contacts/handler.go:90-130 | Succeeds exactly when no statement fails, the company exists and no active contact of it has the address; AlreadyExists exactly when one has |
| Services.UpdateContactMeaning | internal/contacts/handler.go:132-161 | Succeeds exactly on an active contact whose new address no other active contact of its company has, and changes the address alone; NotFound exactly when there is no active contact with the id |
| Services.ArchiveContactMeaning | internal/contacts/handler.go:167-186 | Archives exactly a contact without a grant, changing nothing but the mark |
| Services.UpdateCompanyMeaning | internal/companies/handler.go:162-200 | Succeeds exactly on an active customer of a ready workspace with a name and a known account owner or none, leaves the form's values there, and tells the MSP row from a missing one |
| Services.UpdateMspMeaning | internal/companies/handler.go:289-326 | Succeeds exactly in a ready workspace with a name, and changes the profile of the MSP row alone |
| Services.MarkCompanyMeaning | internal/companies/handler.go:204-263 | Archiving succeeds exactly on an active customer and restoring exactly on an archived one, both changing nothing but the mark; each refusal has its exact condition |
| Services.CreateCompanyMeaning | internal/companies/handler.go:67-111 | Succeeds exactly in a ready workspace with a name, a known account owner or none and an unused organisation; a created organisation stays, recorded as a leak without its row |
| Backend.Store.InsertContact | db/migrations/00005_create_contacts.sql:40-57 | The insert succeeds exactly when the company exists and neither unique index objects, and otherwise changes nothing. |
| Backend.Store.InsertCompany | db/migrations/00002_create_companies.sql:21-22 | The insert fails for a second MSP row, an organisation that another row has, or an unknown account owner, and then changes nothing. |
| TeamService.Handler.ChangeRole | internal/team/handler.go:179-212 | The body with its helpers is the uninterrupted run of the four statements, and on success the grant has the new role and its old status |
| TeamService.Handler.SuspendMember | internal/team/handler.go:218-246 | The body with its helpers is the uninterrupted run of the four statements, and on success the grant is suspended and keeps its role |
| TeamService.Handler.ReactivateMember | internal/team/handler.go:249-268 | The body is the uninterrupted run of its statements, without the guard, and on success the grant is active and keeps its role |
| TeamService.Handler.LoadContactAndGrant | internal/team/handler.go:273-289 | Loads exactly what the first two statements load, with the same refusals. |
| TeamService.Handler.InviteMember | internal/team/handler.go:80-174 | The body, with its committed flag and deferred clean-up, is the uninterrupted run of the invite's steps on the tables, ZITADEL and the history. |
| Orchestrator.Runner.Fail | internal/install/orchestrator.go:101-123 | The fail closure is the compensation of the saga: remove the organisation if one was created, then record the failure. |
| Orchestrator.Runner.Run | internal/install/orchestrator.go:93-235 | The body is the uninterrupted saga, and activates the gate with the fresh contract exactly on success. |
| Orchestrator.Runner.MarkReady | internal/install/orchestrator.go:221-234 | The readiness mark and the OnReady hook are the saga's last steps: the gate gets the fresh contract exactly when the mark succeeds, the contract is complete and discovery works. |
| Orchestrator.Runner.MaterializeTeam | internal/install/orchestrator.go:193-219 | The three inserts are the saga's steps from the company to the grant, or lead to its compensation. |
| Orchestrator.InstallHandler.Install | internal/install/handler.go:75-142 | The handler is the admission steps of one request in a row plus the provisioning mark, with the slot given back when the mark fails; it starts a Run if and only if the token, the form, the read, the row's state, the free slot and the mark allow it, and each refusal has its exact condition |
| Orchestrator.InstallHandler.Goroutine | internal/install/handler.go:126-137 | The goroutine runs the saga and always gives the slot back. |
| Middleware.AuthzMiddleware.ShouldTouch | internal/authz/middleware.go:195-204 | Says yes exactly when the history of visits gains a touch, and its memory is that history's. |
| Middleware.AuthzMiddleware.Wrap | internal/authz/middleware.go:85-189 | The body decides and writes as the uninterrupted request does, gives each answer exactly under its condition on the path, the rows and the policy, and consults the throttle exactly for callers whose grant is neither missing nor suspended |
| ServiceHandlers.ContactsHandler.CreateContact | internal/contacts/handler.go:90-130 | The pre-check and the insert amount to the contact function of the shared state, with its refusals. |
| ServiceHandlers.ContactsHandler.ArchiveContact | internal/contacts/handler.go:167-186 | Archives exactly a contact without a grant, as the two statements in a row do. |
| ServiceHandlers.CompaniesHandler.CreateCompany | internal/companies/handler.go:67-111 | The organisation is created first; a row that cannot be inserted leaves it behind, recorded. |
| ServiceHandlers.CompaniesHandler.UpdateCompany | internal/companies/handler.go:162-200 | Updates only an active customer row; the MSP row and a missing row are told apart. |
| ServiceHandlers.CompaniesHandler.ExplainMissingCompany | internal/companies/handler.go:332-341 | FailedPrecondition exactly for the MSP row, NotFound otherwise. |
| ServiceHandlers.CompaniesHandler.UpdateWorkspaceCompany | internal/companies/handler.go:289-326 | Changes the MSP row's profile and nothing else. |
| PatWatch.TrimIsIdempotent | internal/patwatch/patwatch.go:174-187 | Trimmed text has no white space at either end, and trimming it again changes nothing. |
| PatWatch.TrimSpaceIff | internal/patwatch/patwatch.go:182-182 | The trimmed text is the only one with bare ends that is the original up to white space around it |
| PatWatch.ReadTrimmedIff | internal/patwatch/patwatch.go:174-187 | A read succeeds exactly when the file is readable and not blank, with the text between the white space |
| PatWatch.AcceptedIff | internal/patwatch/patwatch.go:130-147 | An event carries a new value exactly for one of the five operations on the watched file when the read succeeds |
| PatWatch.LatestIsUnique | internal/patwatch/patwatch.go:151-169 | "The last accepted read, or the initial one" describes exactly one value. |
| PatWatch.Watcher.Reload | internal/patwatch/patwatch.go:151-169 | Takes a successful non-blank read and otherwise keeps what there is; skipping an equal value cannot be observed. |
| PatWatch.Watcher.Loop | internal/patwatch/patwatch.go:119-149 | After any events, Get returns the last successful non-blank read on a matching event, or the initial one, and never a blank. |
| PatWatch.New | internal/patwatch/patwatch.go:57-98 | Fails exactly on an empty or unresolvable path, a missing, unreadable or blank file, or a directory that cannot be watched. |
| AvatarHash.PolynomialAppend | web/src/components/companies/owner-avatar.tsx:15-19 | Appending a code unit multiplies the base-31 polynomial by 31 and adds it. |
| AvatarHash.ReduceEarly | web/src/components/companies/owner-avatar.tsx:15-19 | Reducing modulo 2^32 before a step does not change the reduced result of the step. |
| AvatarHash.HashTone | web/src/components/companies/owner-avatar.tsx:15-19 | For ids of any length the loop computes the whole polynomial modulo 2^32, no Number it forms reaches 2^53, and the tone index is in range. |
| Highlight.IndexOfIsFirst | web/src/components/tickets/tickets-columns.tsx:247-247 | The search finds the first occurrence from its start, and reports none only when there is none. |
| Highlight.Scan | web/src/components/tickets/tickets-columns.tsx:244-262 | The loop terminates and pushes exactly the parts of its turns. |
| Highlight.ScanShows | web/src/components/tickets/tickets-columns.tsx:244-262 | Whatever the lower-cased strings are, the parts concatenate to the text. |
| Highlight.ScanTiles | web/src/components/tickets/tickets-columns.tsx:244-262 | If lower-casing keeps the lengths, marks and plain parts tile the text, and no occurrence starts in a plain part. |
| Highlight.TilesMeaning | web/src/components/tickets/tickets-columns.tsx:244-262 | In such a tiling marks show occurrences only, do not overlap, and every occurrence starts inside one. |
| Highlight.Highlight | web/src/components/tickets/tickets-columns.tsx:238-263 | Concatenation always; and with length-preserving lower-casing the marks are exactly occurrences, up to overlaps. |
| Highlight.MarksRightIff | web/src/components/tickets/tickets-columns.tsx:238-263 | With unit-wise lower-casing, every needle that keeps its length is marked rightly (marks equal it, matches start in marks, up to case) if and only if every unit of the text is lowered to one unit. |
| Highlight.SingleMarksRightIff | web/src/components/tickets/tickets-columns.tsx:238-263 | In a text whose units are each lowered to one unit, any needle, of any length, is marked rightly if and only if its lowering keeps its length or is nowhere found. |
| Highlight.AllNeedlesRightIff | web/src/components/tickets/tickets-columns.tsx:238-263 | Every needle is marked rightly if and only if every unit of the text is lowered to one unit and no longer lowering of any unit occurs in the lowered text. |
| Highlight.LongNeedleMarksWrong | web/src/components/tickets/tickets-columns.tsx:241-258 | A concrete case: the needle U+0130, lowered to two units, is found in a text of those two units, and only the first is marked. |
| Highlight.LengtheningMarksWrong | web/src/components/tickets/tickets-columns.tsx:241-258 | For any text with a unit that is lowered to several: a search for the first of them marks that unit, which does not equal it. |
| Highlight.HighlightByUnit | web/src/components/tickets/tickets-columns.tsx:238-263 | The whole function with unit-wise lower-casing; its marks are right whenever every unit of the text is lowered to one unit and the needle keeps its length. |
| Highlight.LengtheningMisplacesMarks | web/src/components/tickets/tickets-columns.tsx:241-242 | A concrete text whose lower-casing is longer: the loop's parts leave the occurrence unmarked. |
| Sorting.SortMeaning | web/src/lib/tickets-client.ts:124-141 | With a consistent comparator the sort is a sorted permutation that keeps equal elements in order. |
| Sorting.StableSortIsUnique | web/src/lib/tickets-client.ts:124-141 | There is only one such result, so the engine's algorithm does not matter. |
| Tickets.CompareOpenIsConsistent | web/src/lib/tickets-client.ts:127-140 | The open-ticket comparator is a total preorder on all tickets, as section 23.1.3.30 of ECMA-262 requires. |
| Tickets.ComparatorsAreConsistent | web/src/components/tickets/tickets-columns.tsx:14-21 | So are the closed-ticket comparator and the SLA column's, plain and negated. |
| Tickets.SlaOrder | web/src/components/tickets/tickets-columns.tsx:11-21 | Sorting by SLA ascending rearranges the rows into running clocks in order, then paused ones. |
| Tickets.SlaOrderDescending | web/src/components/tickets/tickets-columns.tsx:11-21 | Sorting by the negated comparator puts every paused row first, then running clocks from the longest. |
| Tickets.PausedLastBothWaysIff | web/src/components/tickets/tickets-columns.tsx:11-21 | Paused rows are at the bottom in both directions if and only if there are no paused rows or no others. |
| Tickets.ListingMeaning | web/src/lib/tickets-client.ts:103-143 | A listing is the one sorted, stable rearrangement of exactly the selected tickets. |
| Tickets.ListingHolds | web/src/lib/tickets-client.ts:103-123 | A listing holds exactly the tickets of the store that are open or closed as the view asks, meet its condition, belong to the company and contain the needle in one of four texts, each as often as it is there |
| Tickets.ListingOrder | web/src/lib/tickets-client.ts:124-141 | In an open view tickets stand by risk, then by clock, then P1 to P4, then by last update; in the closed view by days since closing |
| Tickets.AtRiskFirst | web/src/lib/tickets-client.ts:127-135 | In an open view every at-risk ticket precedes the others, in SLA order. |
| Tickets.CountsMatchListings | web/src/lib/tickets-client.ts:153-163 | Each view's count is the length of its listing without company and query. |
| Tickets.CountsMeaning | web/src/lib/tickets-client.ts:153-163 | Each count is the number of places in the store whose ticket meets the view's condition |
| Tickets.NewTicketMeaning | web/src/lib/tickets-client.ts:182-197 | A new ticket has the given texts, a clock of four, eight or twenty-four hours by priority, no assignee, and the next number in its id |
| Tickets.CreateKeepsNumbering | web/src/lib/tickets-client.ts:178-200 | A creation keeps the numbering and raises only the counts of all and unassigned. |
| Tickets.CreationsKeepEverything | web/src/lib/tickets-client.ts:178-200 | After any sequence of creations ids are pairwise distinct, only those two counts moved, by the number of creations, and all + closed = store size. |
| Tickets.IdsAreDistinct | web/src/lib/tickets-client.ts:182-182 | Two tickets of a numbered store never share an id. |
| Tickets.DecimalRoundTrip | web/src/lib/tickets-client.ts:182-182 | The decimal in an id reads back as the number it was made from. |
| Tickets.TallyTotal | web/src/lib/tickets-client.ts:165-172 | The numeric counts miss exactly the tickets whose client is named like an inherited property. |
| Tickets.TallyCounts | web/src/lib/tickets-client.ts:169-172 | The counter object has each name once: the number of its tickets for an ordinary client, text for an inherited name, nothing for __proto__ |
| Tickets.ClientCountsIff | web/src/lib/tickets-client.ts:165-176 | The counts sum to the store size if and only if no client has such a name. |
| Tickets.ConstructorIsNotCounted | web/src/lib/tickets-client.ts:169-172 | A concrete store of one ticket, of the client "constructor", that the counts miss. |
| Tickets.Client.FilterView | web/src/lib/tickets-client.ts:104-112 | The view's successive filters select exactly the view's tickets, in store order. |
| Tickets.Client.ApplyFilters | web/src/lib/tickets-client.ts:103-143 | The successive filters and the sort produce the listing. |
| Tickets.Client.GetTicketCounts | web/src/lib/tickets-client.ts:153-163 | Every count is the size of its view, and open and closed cover the store. |
| Tickets.Client.ListClientNames | web/src/lib/tickets-client.ts:169-172 | The loop fills the counter object with the tally of the store. |
| Tickets.Client.CreateTicket | web/src/lib/tickets-client.ts:178-200 | Puts one new ticket with an unused id in front of the store and changes nothing else. |

## Left out

- LastAdmin.LastAdminStays: assumes that at most one removal is in its window, because `SafeIffOneWindow` shows the claim false otherwise.
- AdminSafety.OneWindowKeepsWorkingAdmin: assumes at most one removal in its window and no overlap, because `AdminSafety.SafeIff` shows the claim false otherwise.
- Lifetime.OrgsConserved, every theorem of Lifetime, and Reachability.InstallableIff: assume atomic admission or install requests that do not overlap, because `ReadyIsAbsorbingIff` shows ready is not absorbing otherwise. A process that dies with an organisation in hand is a step of the machine; such a workspace never becomes ready again.
- Lifetime.NoArchivedCaller: handlers are one step each; statement by statement the claim is that of `ArchiveRace.NoArchivedCaller`, and `SafeIffNoOverlap` shows why it excludes overlaps.
- Highlight.Highlight: what it says about marks assumes that lower-casing keeps the lengths of text and needle, because `MarksRightIff` and `SingleMarksRightIff` show it false otherwise; lower-casing must not turn a needle into the empty string.
- Highlight.MarksRightIff: lower-casing works unit by unit, erases no unit and leaves lowered units alone; the contextual final sigma is not modelled. A unit is a `char`, which here is a Unicode scalar value: a letter outside the Basic Multilingual Plane is one unit, where JavaScript has a surrogate pair that is lowered as a pair.
- Tickets.SlaOrderDescending: the table library is not part of the model; its descending direction is taken to be the negated comparator.
- Tickets.Client.ListClientNames: stops at the counter object; Object.entries' order of integer-like keys and the final sort by count are not modelled.
- Tickets.CompareOpenIsConsistent: Numbers are reals, so NaN, infinities and rounding are not modelled; the store's numbers are all finite integers.
- Throttle.TouchBound: needs a clock that never goes back, which is what a monotonic clock gives.
- Install.RunStep: a SetUpOrg call that fails is taken to have created nothing.
- PostgreSQL: isolation levels, timestamps (created_at, last_seen_at) and the order of ListTeamMembers; each statement is atomic and unique indexes are conditions for success.
- Columns without a guard: workspace name, timezone and currency, granted_by_contact_id, contact names and phones; a company's name and address are one opaque profile.
- Emails: compared as case-folded keys; the folding itself is not modelled.
- RenameOrg after a company rename, which is best effort and changes no modelled state.
- TeamMachine: contact creation and update and the company handlers are not among its threads; they touch neither grants nor archive marks and identities of existing contacts, as `Lifetime.ContactEditsStayLocal` and `Lifetime.CompanyEditsStayLocal` state.
- Concurrency inside the class methods: they run start to finish; interleaving is the subject of the machines.
- HTTP and Connect plumbing: error texts, status codes, protobuf mapping, UUID parsing, token comparison, temporary passwords; validation outcomes are parameters, and a password that cannot be generated is a failed mint.
- JWT verification and OIDC discovery: an outcome and a verifier determined by issuer and audience.
- The policy map's and the public list's contents: arbitrary.
- The 22 seed tickets' contents other than their ids: arbitrary. toLowerCase and trim: arbitrary functions.
- React pages, the priority column's sort, routing, styling, generated code, shell scripts and deployment files.

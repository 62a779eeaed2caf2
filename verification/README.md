# Claim workflow policy of the auto-insurance claims service

The claims service moves an insurance claim through seven statuses (submitted,
under_review, assigned, investigating, approved, rejected, settled). Who may
move a claim, and where to, is written down twice:

- the backend's transition table `can_transition_status`, enforced by the
  status-update endpoint; and
- the claim detail page's `getAvailableActions`, which decides which buttons
  the web client shows, plus `handleActionClick`, which decides what a button
  sends.

This project models both copies as pure functions over closed enumerations.
It models them as written. Where the code is evidently wrong, the corrected
form sits beside it (see Findings). It proves what each copy
guarantees and how the two relate: where they agree, and concrete witnesses of
where they part.

Modules:

- `Results` (results.dfy): `Option` and `Result`.
- `Models` (models.dfy): the `UserRole` and `ClaimStatus` enumerations with
  their string values, the default status, and the claim, user and policy
  records. Nullable columns are `Option`s.
- `Workflow` (workflow.dfy): the backend transition table as a nested map, its
  lookup with empty defaults, and the facts about it: terminal states, the
  customer role, the forward order, chains, admin dominance.
- `Backend` (backend.dfy): `create_claim`, `get_claims`, `get_claim_detail` and
  `update_claim_status`, over a claims table with an autoincrement counter.
  Endpoint errors are `Result` failures: 404 is `NotFound`, 403 is `Forbidden`,
  422 is `Unprocessable`.
- `ClaimDetail` (claim_detail.dfy): the detail page's button list and click
  handler.
- `Agreement` (agreement.dfy): lemmas relating the page to the backend, how an
  update request travels from the page to the endpoint, and the findings below.

The clock (`updated_at`, `created_at`), the generated claim number and the
answer a `prompt` returns are parameters. Amounts are integer cents.

The backend's admin row is narrow: at most three targets from any status, and
none out of rejected or settled. The page lets an admin request any status but
submitted, under the comment "Admin can do any transition"
(frontend/app/claim-detail/page.tsx:109). Saves are last-write-wins.

## Model

| member | source | states |
|---|---|---|
| Models.ParseRole | backend/models.py:5-10 | a role is read back only from its own string value; any other string names no role |
| Models.ParseStatus | backend/models.py:12-19 | a status is read back only from its own string value; any other string names no status |
| Models.RolesClosed | backend/models.py:5-10 | exactly five roles, with distinct string values, each read back to itself |
| Models.StatusesClosed | backend/models.py:12-19 | exactly seven statuses, with distinct string values, each read back to itself |
| Workflow.AllowedTargets | backend/main.py:183-215 | the targets a role may request from a status: at most three, without repeats, and none for a customer or out of rejected or settled |
| Workflow.CanTransition | backend/main.py:183-215 | an allowed move never comes from a customer or a terminal status, never targets submitted or the current status, always moves forward, and is always among the admin's targets |
| Workflow.TerminalStatesAreDeadEnds | backend/main.py:210-215 | no role may move a claim out of rejected or settled, to any target |
| Workflow.CustomerNeverTransitions | backend/main.py:185-215 | a customer is absent from every entry, so the default empty list denies every move |
| Workflow.NoReturnToSubmittedNoSelfLoop | backend/main.py:185-209 | no allowed move targets submitted, and none keeps the status |
| Workflow.TransitionsMoveForward | backend/main.py:185-209 | every allowed move goes strictly forward along submitted, under_review, assigned, investigating, approved, settled; rejection comes only from the four open statuses |
| Workflow.AdminDominates | backend/main.py:185-209 | at every status the admin's allowed targets include those of every other role |
| Workflow.ChainRankGrows | backend/main.py:185-211 | along any chain of allowed moves the position on the forward path grows by at least one per step |
| Workflow.ChainsAreShortAndAcyclic | backend/main.py:185-211 | a chain of allowed moves has at most five steps and never revisits a status |
| Workflow.LongestChainExists | backend/main.py:186-209 | the five-step chain from submitted to settled is allowed, so the bound is tight |
| Backend.CreateClaim | backend/main.py:96-108 | a missing policy gives 404; otherwise the new claim is submitted, has no adjuster, estimate or approved amount, belongs to the policy's customer, takes the claim number, the incident date, description and location given, is created and updated at the same instant, gets a fresh id, and keeps the table well formed |
| Backend.Listed | backend/main.py:113-133 | an admin sees every claim, a customer only its own, an adjuster only claims it may open, and staff other than admins no rejected or settled claim |
| Backend.ListClaims | backend/main.py:111-135 | a claim is listed iff it is in the table and passes the caller's role filter; an admin gets the whole table |
| Backend.CustomerListsOwnClaims | backend/main.py:113-115 | a customer's list holds exactly the customer's own claims |
| Backend.AgentListsEarlyClaims | backend/main.py:116-118 | an agent's list holds exactly the submitted and under-review claims |
| Backend.AdjusterListsOwnWorkingClaims | backend/main.py:119-125 | an adjuster's list holds exactly its own claims in assigned, investigating or approved |
| Backend.ManagerListsWorkingClaims | backend/main.py:126-130 | a manager's list holds exactly the claims in under_review, assigned, investigating or approved |
| Backend.AdjusterListOmitsUnassigned | backend/main.py:119-125 | as the database evaluates the query, an unassigned claim is never in an adjuster's list |
| Backend.ListedAsCommented | backend/main.py:119-125 | the filter the comment describes: an adjuster sees exactly the claims in assigned, investigating or approved that are assigned to it or to nobody, so claims of other adjusters stay out; every other role is unchanged |
| Backend.ListClaimsAsCommented | backend/main.py:111-135 | with the commented filter, a claim is listed iff it is in the table and passes that filter |
| Backend.CommentedListShowsUnassigned | backend/main.py:119-125 | with the commented filter, an adjuster's list includes the unassigned claims in the three working statuses and everything the database's list holds |
| Backend.MayOpen | backend/main.py:146-150 | agents, managers and admins may open any claim; a customer only its own; an adjuster only a claim assigned to it |
| Backend.GetClaimDetail | backend/main.py:137-152 | 404 for a missing claim, 403 when access is refused, otherwise the stored claim unchanged |
| Backend.DetailAccessByRole | backend/main.py:146-150 | a customer opens only its own claims, an adjuster only claims assigned to it, other roles any claim |
| Backend.AdjusterListWithinOpenable | backend/main.py:119-150 | every claim in an adjuster's list opens without a 403 |
| Backend.ApplyUpdate | backend/main.py:171-180 | an accepted update sets the status, overwrites each payload field only when it is supplied, stamps the save time, and leaves every other field as it was |
| Backend.UpdateNeverClearsFields | backend/main.py:173-178 | an adjuster, estimate or approved amount, once set, stays set across updates |
| Backend.UpdateIdempotent | backend/main.py:171-180 | applying the same update twice at the same instant equals applying it once |
| Backend.UpdateLastWriteWins | backend/main.py:171-180 | an update that supplies every field erases the effect of the update before it |
| Backend.UpdateClaimStatus | backend/main.py:154-181 | 404 for a missing claim before any rule check, then 403 iff the table denies the move for the caller's role; on success only that claim changes, it changes as ApplyUpdate says, and the table stays well formed |
| Backend.UpdateVerdictDependsOnlyOnStatusesAndRole | backend/main.py:163-169 | the verdict is the same for any two requests that agree on stored status, target and role: the payload, the caller's id, the clock and the assigned adjuster play no part |
| Backend.TerminalClaimsFrozen | backend/main.py:163-169 | every update of a rejected or settled claim gets 403, whatever the role and target; with `new_status` read from the body (`Agreement.BindBody`), this includes every request the page sends an admin from those statuses |
| Backend.AdjusterMovesAnyAssignedClaim | backend/main.py:163-180 | any adjuster may move any assigned claim to investigating or rejected, with no ownership check |
| Backend.AdjusterMovesClaimItCannotOpen | backend/main.py:137-180 | concretely, an adjuster refused a claim's detail view may still move that claim |
| ClaimDetail.AgentActions | frontend/app/claim-detail/page.tsx:74-82 | every agent button fits the claim: it targets neither the current status nor submitted, and its flags match its target |
| ClaimDetail.ManagerActions | frontend/app/claim-detail/page.tsx:84-95 | every manager button fits the claim, and only Assign to Adjuster asks for an adjuster |
| ClaimDetail.AdjusterActions | frontend/app/claim-detail/page.tsx:97-106 | every adjuster button fits the claim, and there are none unless the claim is assigned to the adjuster |
| ClaimDetail.OtherThan | frontend/app/claim-detail/page.tsx:111-112 | the kept statuses are exactly the candidates other than the current one, without repeats, one fewer than the candidates when the current status is among them; all candidates when it is not; the first candidate stays first unless it is the current status |
| ClaimDetail.AdminListOtherThan | frontend/app/claim-detail/page.tsx:110-120 | the admin list less the current status holds every status but submitted and the current one: six on submitted, five otherwise |
| ClaimDetail.AdminActions | frontend/app/claim-detail/page.tsx:108-121 | every admin button fits the claim, and the buttons request the page's list less the current status, in list order |
| ClaimDetail.AvailableActions | frontend/app/claim-detail/page.tsx:66-124 | nothing before claim and user are loaded; no button targets the current status or submitted; needsAdjuster iff the target is assigned, needsAmount iff it is approved |
| ClaimDetail.CustomerGetsNoActions | frontend/app/claim-detail/page.tsx:74-121 | a customer is offered no button at any status |
| ClaimDetail.AdjusterNeedsOwnership | frontend/app/claim-detail/page.tsx:97-106 | an adjuster gets buttons only when the claim's adjuster is that user, and then two at assigned and at investigating |
| ClaimDetail.AdminGetsEveryOtherStatus | frontend/app/claim-detail/page.tsx:108-121 | an admin gets one button per status other than submitted and the current one: six on a submitted claim, five otherwise |
| ClaimDetail.ActionOrderExamples | frontend/app/claim-detail/page.tsx:74-91 | agent on submitted gets under_review then rejected; manager on under_review gets assigned then rejected |
| ClaimDetail.AdminOrderExample | frontend/app/claim-detail/page.tsx:108-121 | an admin on an assigned claim gets under_review, investigating, approved, rejected, settled, in that order |
| ClaimDetail.HandleActionClick | frontend/app/claim-detail/page.tsx:126-140 | a click sends its button's status; the adjuster id only for needsAdjuster, the amount only for needsAmount without needsAdjuster, the answer unchanged; a cancelled or empty prompt sends nothing |
| ClaimDetail.PayloadFollowsTarget | frontend/app/claim-detail/page.tsx:126-140 | for every offered button the adjuster id is sent iff it targets assigned and the amount iff it targets approved |
| Agreement.StaffButtonsAllowedByBackend | frontend/app/claim-detail/page.tsx:74-106 | every button offered to an agent, manager or adjuster is a move the backend table allows that role |
| Agreement.AgentTablesAgree | frontend/app/claim-detail/page.tsx:74-82 | an agent's buttons are exactly the backend's agent targets, in the same order |
| Agreement.OwningAdjusterTablesAgree | frontend/app/claim-detail/page.tsx:97-106 | an owning adjuster's buttons are exactly the backend's adjuster targets; a non-owner has none |
| Agreement.ManagerGap | frontend/app/claim-detail/page.tsx:84-95 | manager buttons are backend-allowed, and the moves allowed but not offered are exactly five: submitted to assigned, assigned to investigating or rejected, investigating to approved or rejected |
| Agreement.ManagerWitnesses | backend/main.py:188-198 | the backend allows a manager submitted to assigned and assigned to investigating; the page offers neither |
| Agreement.AdminBackendWithinButtons | frontend/app/claim-detail/page.tsx:108-121 | every move the backend allows an admin is offered to the admin |
| Agreement.AdminRefusedTarget | backend/main.py:185-211 | at each status, a target the admin page offers and the backend denies the admin |
| Agreement.AdminButtonsBeyondBackend | frontend/app/claim-detail/page.tsx:108-121 | at every status the page offers an admin some move the backend denies |
| Agreement.AdminTerminalButtonsRefused | frontend/app/claim-detail/page.tsx:110-120 | out of rejected or settled an admin gets five buttons, all denied by the backend |
| Agreement.StaffRequestsAccepted | backend/main.py:154-181 | a request sent by an agent, manager or adjuster for an offered button passes the rule check and moves the claim to that button's status, whatever the payload |
| Agreement.NonOwnerAdjusterDivergence | backend/main.py:163-169 | an adjuster not assigned to an assigned claim gets no button, yet the backend accepts its move to investigating |
| Agreement.ServedAdjusterGetsNoButtons | backend/schemas.py:38-48 | on the claim as the detail endpoint serializes it, the page offers an adjuster no button at any status |
| Agreement.ServedOwnerLosesButtons | frontend/app/claim-detail/page.tsx:97-106 | the owning adjuster of an assigned or investigating claim may open it and has two allowed moves, but the served claim yields no buttons |
| Agreement.ServedView | backend/schemas.py:38-48 | the claim as the detail endpoint serializes it keeps the status but loses the adjuster, so no adjuster gets a button on it |
| Agreement.PageWire | frontend/app/claim-detail/page.tsx:46-52 | the page sends the new status as its string value, and the prompted adjuster id or amount, in the JSON body, with an empty query string |
| Agreement.BindDeclared | backend/main.py:154-161 | the declared scalar `new_status` is read from the query string: a status iff the value there is a status's string, otherwise 422 |
| Agreement.BindBody | backend/main.py:154-161 | `new_status` read from the JSON body: a status iff the value there is a status's string, otherwise 422 |
| Agreement.PageUpdatesUnprocessable | backend/main.py:154-161 | as declared, every update the page sends gets 422 |
| Agreement.PageUpdatesBoundFromBody | frontend/app/claim-detail/page.tsx:46-52 | read from the body, every update the page sends binds to its button's status |
| Agreement.StaffClicksAcceptedFromBody | backend/main.py:154-181 | with the body read, a click by an agent, manager or adjuster on an offered button moves the claim to that button's status |

## Findings

| source | as written | input that shows it | evidently intended | confidence | as-written member | corrected member |
|---|---|---|---|---|---|---|
| backend/schemas.py:38-48 | `get_claim_detail` serializes the claim through `ClaimResponse`, which has no `assigned_adjuster_id` field. The detail page then compares an absent field with `user.id` (page.tsx:98, 102), and the comparison is always false. | Adjuster 7 opens claim 1, which is assigned to 7 and in status assigned. The endpoint allows the open and the backend would accept investigating or rejected, but the page shows no button. | The page sees the stored adjuster. Its buttons then equal the backend's adjuster row (Agreement.OwningAdjusterTablesAgree). | high; not executed | Agreement.ServedOwnerLosesButtons | Agreement.View |
| backend/main.py:119-125 | The adjuster query filters `assigned_adjuster_id__in=[current_user.id, None]`, which becomes SQL `IN (id, NULL)`. A comparison with NULL is never true, so unassigned claims are not matched, although the comment says adjusters see "all unassigned". | Claim 1 is in status assigned with no adjuster. Adjuster 7 lists claims, and claim 1 is missing. | An adjuster's list also holds the unassigned claims in assigned, investigating and approved. | medium; not executed | Backend.AdjusterListOmitsUnassigned | Backend.ListedAsCommented |
| backend/main.py:154-161 | `update_claim_status` declares `new_status` and the payload as scalar parameters, which FastAPI reads from the query string. The page's `updateStatus` (page.tsx:46-52) sends them in a JSON body. | An agent clicks "Move to Review" on a submitted claim. The request carries `{"new_status": "under_review"}` in its body and no query string, so `new_status` is missing. | The endpoint reads the page's body, and every request for an offered staff button is accepted (Agreement.StaffClicksAcceptedFromBody). | high; not executed | Agreement.PageUpdatesUnprocessable | Agreement.BindBody |

`Agreement.View` keeps the adjuster field, and all other agreement lemmas are
stated over `View`. `Backend.ListClaims` keeps the database's evaluation of
the adjuster filter. The agreement lemmas about requests assume the status
reaches the endpoint as sent, which `Agreement.BindBody` provides.

## Left out

- HTTP routing, CORS, static files, the ORM and its registration: framework plumbing. The model gets a claims table and a user value directly.
- Authentication: `get_current_user`, JWT, password hashing and the cookie client. These are library wrappers, and auth.py is not part of this model. The caller is a given `User`.
- `create_claim`'s role gate `require_role([CUSTOMER, AGENT])`: it is defined in auth.py, which is not part of this model. CreateClaim starts after that gate.
- Documents, notes, policy creation and listing, registration, login and the adjuster directory: I/O with no workflow decision.
- Amounts are integer cents. Float and Decimal rounding of `estimated_damage` and `approved_amount`, and the page's `parseInt`/`parseFloat` of prompt answers, are not modelled: the request carries the prompt text.
- Backend.ListClaims: states membership, length, and the whole table for admins, but not that kept rows keep their relative order. The database applies no ordering.
- Backend.Listed: the adjuster filter is modelled with the database's NULL semantics, under which a NULL column never matches `IN`; the filter the comment describes is `Backend.ListedAsCommented` (see Findings).
- Backend.UpdateClaimStatus: the claims table's foreign key on `assigned_adjuster_id` is not modelled. An update naming an id that is no user fails at `claim.save()` (backend/main.py:180), most likely as a 422 from the ORM's exception handlers (backend/main.py:273-279), and saves nothing. The model returns `Success` there, because it has no users table.
- Concurrency: saves are last-write-wins and there is no compare-and-set. There is no audit log, and no check that an adjuster id names an adjuster or that an amount is non-negative. The code has none of these, so the model has none.
- Agreement.BindDeclared: binds `new_status` only. The payload fields are scalar parameters too, and the body's copies of them go unread the same way; since a page request is refused before they matter, they are not modelled.
- Page state around the buttons: the loading spinner, the disabled-while-updating state, the reload after an update, and alerts are presentation. Roles or statuses outside the enumerations cannot be represented.
- The admin button titles are stored as the strings the template produces ("Move to UNDER REVIEW"), not computed by string replacement and upper-casing.

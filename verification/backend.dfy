/**
 * The claim endpoints of the backend: creation, the role-filtered list, the
 * access-checked detail view and the status update.
 */
module Backend {
  import opened Results
  import opened Models
  import opened Workflow

  /**
   * The HTTP errors of the claim endpoints: 404 and 403 raised by the
   * endpoints themselves, 422 raised by the framework when a declared
   * parameter is missing or malformed.
   */
  datatype HttpError = NotFound | Forbidden | Unprocessable

  /** The claims table keyed by id, with the id the database hands out next. */
  datatype Database = Database(claims: map<nat, Claim>, nextId: nat)

  /** Every row is stored under its own id, and every id is below the next one handed out. */
  predicate Valid(db: Database) {
    forall id :: id in db.claims ==> id < db.nextId && db.claims[id].id == id
  }

  /** The body of a claim-creation request. */
  datatype ClaimCreate = ClaimCreate(
    policyId: nat,
    incidentDate: int,
    incidentDescription: string,
    incidentLocation: string)

  /**
   * `create_claim`: the policy must exist (404 otherwise); the new row takes the
   * policy's customer and leaves every column it does not name at its default.
   * The generated claim number and the clock are parameters.
   */
  function CreateClaim(db: Database, policies: map<nat, Policy>, req: ClaimCreate,
                       claimNumber: string, now: int): (r: Result<(Database, Claim), HttpError>)
    ensures r.Failure? <==> req.policyId !in policies
    ensures r.Failure? ==> r.error == NotFound
    ensures r.Success? ==>
      var (db', c) := r.value;
      && c.status == DefaultStatus
      && c.assignedAdjusterId.None? && c.estimatedDamage.None? && c.approvedAmount.None?
      && c.policyId == req.policyId
      && c.claimNumber == claimNumber
      && c.incidentDate == req.incidentDate
      && c.incidentDescription == req.incidentDescription
      && c.incidentLocation == req.incidentLocation
      && c.createdAt == now && c.updatedAt == now
      && c.customerId == policies[req.policyId].customerId
      && db'.claims == db.claims[c.id := c]
      && (Valid(db) ==> c.id !in db.claims && Valid(db'))
  {
    if req.policyId !in policies then Failure(NotFound)
    else
      var c := Claim(
        id := db.nextId,
        claimNumber := claimNumber,
        policyId := req.policyId,
        customerId := policies[req.policyId].customerId,
        assignedAdjusterId := None,
        status := DefaultStatus,
        incidentDate := req.incidentDate,
        incidentDescription := req.incidentDescription,
        incidentLocation := req.incidentLocation,
        estimatedDamage := None,
        approvedAmount := None,
        createdAt := now,
        updatedAt := now);
      Success((Database(db.claims[c.id := c], db.nextId + 1), c))
  }

  /**
   * The filter `get_claims` applies for the calling user, as the database
   * evaluates it. The adjuster query asks for an adjuster column IN (caller,
   * NULL); in SQL that comparison is never true of a NULL column, so only the
   * caller's own claims pass.
   */
  function Listed(user: User, c: Claim): (listed: bool)
    ensures user.role == Admin ==> listed
    ensures listed && user.role == Customer ==> c.customerId == user.id
    ensures listed && user.role == Adjuster ==> MayOpen(user, c)
    ensures listed && user.role != Customer && user.role != Admin ==> c.status != Rejected && c.status != Settled
  {
    match user.role
    case Customer => c.customerId == user.id
    case Agent => c.status in {Submitted, UnderReview}
    case Adjuster =>
      && c.status in {Assigned, Investigating, Approved}
      && c.assignedAdjusterId == Some(user.id)
    case Manager => c.status in {UnderReview, Assigned, Investigating, Approved}
    case Admin => true
  }

  /** The rows, in their order, that `keep` accepts. */
  function FilterRows(rows: seq<Claim>, keep: Claim -> bool): (r: seq<Claim>)
    ensures forall c :: c in r <==> c in rows && keep(c)
    ensures |r| <= |rows|
    ensures (forall c :: c in rows ==> keep(c)) ==> r == rows
  {
    if rows == [] then []
    else
      var rest := FilterRows(rows[1..], keep);
      assert rows == [rows[0]] + rows[1..];
      if keep(rows[0]) then [rows[0]] + rest else rest
  }

  /**
   * `get_claims`: the rows, in the order the database returns them, that the
   * calling user's role filter keeps.
   */
  function ListClaims(rows: seq<Claim>, user: User): (r: seq<Claim>)
    ensures forall c :: c in r <==> c in rows && Listed(user, c)
    ensures |r| <= |rows|
    ensures user.role == Admin ==> r == rows
  {
    FilterRows(rows, c => Listed(user, c))
  }

  /**
   * An adjuster's list holds no unassigned claim, although the query's comment
   * promises all of them.
   */
  lemma AdjusterListOmitsUnassigned(rows: seq<Claim>, user: User, c: Claim)
    requires user.role == Adjuster
    requires c.assignedAdjusterId == None
    ensures c !in ListClaims(rows, user)
  {
  }

  /**
   * The filter the adjuster query's comment describes: the caller's claims in
   * the three working statuses plus all unassigned ones; other roles unchanged.
   */
  function ListedAsCommented(user: User, c: Claim): (listed: bool)
    ensures user.role != Adjuster ==> listed == Listed(user, c)
    ensures Listed(user, c) ==> listed
    ensures user.role == Adjuster ==>
      (listed <==> c.status in {Assigned, Investigating, Approved} && c.assignedAdjusterId in {Some(user.id), None})
    ensures user.role == Adjuster && c.assignedAdjusterId.None? ==>
      (listed <==> c.status in {Assigned, Investigating, Approved})
  {
    if user.role == Adjuster then
      && c.status in {Assigned, Investigating, Approved}
      && c.assignedAdjusterId in {Some(user.id), None}
    else Listed(user, c)
  }

  /** `get_claims` with the commented adjuster filter. */
  function ListClaimsAsCommented(rows: seq<Claim>, user: User): (r: seq<Claim>)
    ensures forall c :: c in r <==> c in rows && ListedAsCommented(user, c)
  {
    FilterRows(rows, c => ListedAsCommented(user, c))
  }

  /**
   * With the commented filter, an adjuster's list includes every unassigned
   * claim in the three working statuses, and everything the database's list has.
   */
  lemma CommentedListShowsUnassigned(rows: seq<Claim>, user: User, c: Claim)
    requires user.role == Adjuster
    requires c in rows
    ensures c.assignedAdjusterId.None? && c.status in {Assigned, Investigating, Approved} ==>
      c in ListClaimsAsCommented(rows, user)
    ensures c in ListClaims(rows, user) ==> c in ListClaimsAsCommented(rows, user)
  {
  }

  /** A customer's list holds only that customer's claims, and all of them. */
  lemma CustomerListsOwnClaims(rows: seq<Claim>, user: User, c: Claim)
    requires user.role == Customer
    requires c in rows
    ensures c in ListClaims(rows, user) <==> c.customerId == user.id
  {
  }

  /** An agent's list holds exactly the submitted and under-review claims. */
  lemma AgentListsEarlyClaims(rows: seq<Claim>, user: User, c: Claim)
    requires user.role == Agent
    requires c in rows
    ensures c in ListClaims(rows, user) <==> c.status == Submitted || c.status == UnderReview
  {
  }

  /** An adjuster's list holds exactly its own claims in assigned, investigating or approved. */
  lemma AdjusterListsOwnWorkingClaims(rows: seq<Claim>, user: User, c: Claim)
    requires user.role == Adjuster
    requires c in rows
    ensures c in ListClaims(rows, user) <==>
      c.status in {Assigned, Investigating, Approved} && c.assignedAdjusterId == Some(user.id)
  {
  }

  /** A manager's list holds exactly the claims in under_review, assigned, investigating or approved. */
  lemma ManagerListsWorkingClaims(rows: seq<Claim>, user: User, c: Claim)
    requires user.role == Manager
    requires c in rows
    ensures c in ListClaims(rows, user) <==> c.status in {UnderReview, Assigned, Investigating, Approved}
  {
  }

  /**
   * Which claims `get_claim_detail` lets the calling user open: any for agents,
   * managers and admins, only its own for a customer, only one assigned to it
   * for an adjuster.
   */
  function MayOpen(user: User, c: Claim): (allowed: bool)
    ensures user.role in {Agent, Manager, Admin} ==> allowed
    ensures allowed && user.role == Customer ==> c.customerId == user.id
    ensures allowed && user.role == Adjuster ==> c.assignedAdjusterId == Some(user.id)
  {
    && !(user.role == Customer && c.customerId != user.id)
    && !(user.role == Adjuster && c.assignedAdjusterId != Some(user.id))
  }

  /**
   * `get_claim_detail`: 404 when the claim does not exist, 403 when the
   * access rule refuses, the stored claim otherwise.
   */
  function GetClaimDetail(db: Database, claimId: nat, user: User): (r: Result<Claim, HttpError>)
    ensures claimId !in db.claims ==> r == Failure(NotFound)
    ensures r.Success? <==> claimId in db.claims && MayOpen(user, db.claims[claimId])
    ensures r.Success? ==> r.value == db.claims[claimId]
    ensures claimId in db.claims && r.Failure? ==> r.error == Forbidden
  {
    if claimId !in db.claims then Failure(NotFound)
    else
      var c := db.claims[claimId];
      if user.role == Customer && c.customerId != user.id then Failure(Forbidden)
      else if user.role == Adjuster && c.assignedAdjusterId != Some(user.id) then Failure(Forbidden)
      else Success(c)
  }

  /**
   * Who may open an existing claim: a customer only its own, an adjuster only
   * one assigned to it, everybody else any claim.
   */
  lemma DetailAccessByRole(db: Database, claimId: nat, user: User)
    requires claimId in db.claims
    ensures user.role == Customer ==>
      (GetClaimDetail(db, claimId, user).Success? <==> db.claims[claimId].customerId == user.id)
    ensures user.role == Adjuster ==>
      (GetClaimDetail(db, claimId, user).Success? <==> db.claims[claimId].assignedAdjusterId == Some(user.id))
    ensures user.role in {Agent, Manager, Admin} ==> GetClaimDetail(db, claimId, user).Success?
  {
  }

  /** Every claim in an adjuster's list is one the adjuster may open. */
  lemma AdjusterListWithinOpenable(db: Database, claimId: nat, rows: seq<Claim>, user: User)
    requires user.role == Adjuster
    requires claimId in db.claims && db.claims[claimId] in ListClaims(rows, user)
    ensures GetClaimDetail(db, claimId, user) == Success(db.claims[claimId])
  {
  }

  /** The query parameters of a status update; every payload field is optional. */
  datatype StatusUpdate = StatusUpdate(
    newStatus: ClaimStatus,
    estimatedDamage: Option<Amount>,
    approvedAmount: Option<Amount>,
    assignedAdjusterId: Option<nat>)

  /** A supplied value replaces the old one; an absent one leaves it. */
  function Overwrite<T>(previous: Option<T>, supplied: Option<T>): Option<T> {
    if supplied.Some? then supplied else previous
  }

  /**
   * The record change of an accepted update: the new status, each supplied
   * payload field, and the modification time the save stamps.
   */
  function ApplyUpdate(c: Claim, u: StatusUpdate, now: int): (r: Claim)
    ensures r.status == u.newStatus
    ensures u.estimatedDamage.None? ==> r.estimatedDamage == c.estimatedDamage
    ensures u.approvedAmount.None? ==> r.approvedAmount == c.approvedAmount
    ensures u.assignedAdjusterId.None? ==> r.assignedAdjusterId == c.assignedAdjusterId
    ensures u.estimatedDamage.Some? ==> r.estimatedDamage == u.estimatedDamage
    ensures u.approvedAmount.Some? ==> r.approvedAmount == u.approvedAmount
    ensures u.assignedAdjusterId.Some? ==> r.assignedAdjusterId == u.assignedAdjusterId
    ensures r.updatedAt == now
    ensures r.(status := c.status, estimatedDamage := c.estimatedDamage, approvedAmount := c.approvedAmount,
               assignedAdjusterId := c.assignedAdjusterId, updatedAt := c.updatedAt) == c
  {
    c.(status := u.newStatus,
       estimatedDamage := Overwrite(c.estimatedDamage, u.estimatedDamage),
       approvedAmount := Overwrite(c.approvedAmount, u.approvedAmount),
       assignedAdjusterId := Overwrite(c.assignedAdjusterId, u.assignedAdjusterId),
       updatedAt := now)
  }

  /** Nullable fields are never cleared: once set, an update leaves them set. */
  lemma UpdateNeverClearsFields(c: Claim, u: StatusUpdate, now: int)
    ensures c.assignedAdjusterId.Some? ==> ApplyUpdate(c, u, now).assignedAdjusterId.Some?
    ensures c.approvedAmount.Some? ==> ApplyUpdate(c, u, now).approvedAmount.Some?
    ensures c.estimatedDamage.Some? ==> ApplyUpdate(c, u, now).estimatedDamage.Some?
  {
  }

  /** Applying the same update twice at the same instant is applying it once. */
  lemma UpdateIdempotent(c: Claim, u: StatusUpdate, now: int)
    ensures ApplyUpdate(ApplyUpdate(c, u, now), u, now) == ApplyUpdate(c, u, now)
  {
  }

  /** Last write wins: an update supplying every field erases the one before it. */
  lemma UpdateLastWriteWins(c: Claim, u1: StatusUpdate, u2: StatusUpdate, t1: int, t2: int)
    requires u2.estimatedDamage.Some? && u2.approvedAmount.Some? && u2.assignedAdjusterId.Some?
    ensures ApplyUpdate(ApplyUpdate(c, u1, t1), u2, t2) == ApplyUpdate(c, u2, t2)
  {
  }

  /**
   * `update_claim_status`: 404 when the claim does not exist, then 403 when the
   * rule table refuses the move for the caller's role, and otherwise the claim
   * saved with the update applied. On an error nothing is saved.
   */
  function UpdateClaimStatus(db: Database, claimId: nat, u: StatusUpdate, user: User, now: int)
    : (r: Result<Database, HttpError>)
    ensures claimId !in db.claims ==> r == Failure(NotFound)
    ensures claimId in db.claims && !CanTransition(db.claims[claimId].status, u.newStatus, user.role) ==>
      r == Failure(Forbidden)
    ensures r.Success? <==> claimId in db.claims && CanTransition(db.claims[claimId].status, u.newStatus, user.role)
    ensures r.Success? ==>
      && r.value.nextId == db.nextId
      && r.value.claims.Keys == db.claims.Keys
      && r.value.claims[claimId] == ApplyUpdate(db.claims[claimId], u, now)
      && (forall k :: k in db.claims && k != claimId ==> r.value.claims[k] == db.claims[k])
    ensures r.Success? && Valid(db) ==> Valid(r.value)
  {
    if claimId !in db.claims then Failure(NotFound)
    else
      var c := db.claims[claimId];
      if !CanTransition(c.status, u.newStatus, user.role) then Failure(Forbidden)
      else Success(Database(db.claims[claimId := ApplyUpdate(c, u, now)], db.nextId))
  }

  /**
   * The verdict depends only on the stored status, the requested status and
   * the caller's role: not on the payload, the caller's id, the clock, or whom
   * the claim is assigned to.
   */
  lemma UpdateVerdictDependsOnlyOnStatusesAndRole(
    db1: Database, db2: Database, claimId: nat, u1: StatusUpdate, u2: StatusUpdate,
    user1: User, user2: User, t1: int, t2: int)
    requires claimId in db1.claims <==> claimId in db2.claims
    requires claimId in db1.claims ==> db1.claims[claimId].status == db2.claims[claimId].status
    requires u1.newStatus == u2.newStatus
    requires user1.role == user2.role
    ensures UpdateClaimStatus(db1, claimId, u1, user1, t1).Success?
        == UpdateClaimStatus(db2, claimId, u2, user2, t2).Success?
    ensures UpdateClaimStatus(db1, claimId, u1, user1, t1).Failure? ==>
      UpdateClaimStatus(db1, claimId, u1, user1, t1).error == UpdateClaimStatus(db2, claimId, u2, user2, t2).error
  {
  }

  /** Every update of a rejected or settled claim is refused with 403, whoever sends it. */
  lemma TerminalClaimsFrozen(db: Database, claimId: nat, u: StatusUpdate, user: User, now: int)
    requires claimId in db.claims && db.claims[claimId].status in {Rejected, Settled}
    ensures UpdateClaimStatus(db, claimId, u, user, now) == Failure(Forbidden)
  {
    TerminalStatesAreDeadEnds(u.newStatus, user.role);
  }

  /**
   * Any adjuster may move any assigned claim on to investigation or rejection,
   * whoever the claim is assigned to.
   */
  lemma AdjusterMovesAnyAssignedClaim(db: Database, claimId: nat, u: StatusUpdate, user: User, now: int)
    requires claimId in db.claims && db.claims[claimId].status == Assigned
    requires user.role == Adjuster
    requires u.newStatus == Investigating || u.newStatus == Rejected
    ensures UpdateClaimStatus(db, claimId, u, user, now).Success?
    ensures UpdateClaimStatus(db, claimId, u, user, now).value.claims[claimId].status == u.newStatus
  {
  }

  /**
   * A concrete case: adjuster 8 may not open claim 1, assigned to adjuster 7,
   * but may start its investigation.
   */
  lemma AdjusterMovesClaimItCannotOpen()
    ensures
      var c := Claim(1, "CLM-1", 1, 2, Some(7), Assigned, 0, "", "", None, None, 0, 0);
      var db := Database(map[1 := c], 2);
      var other := User(8, Adjuster);
      && GetClaimDetail(db, 1, other) == Failure(Forbidden)
      && UpdateClaimStatus(db, 1, StatusUpdate(Investigating, None, None, None), other, 5).Success?
  {
  }
}

/**
 * How the two written copies of the workflow policy relate: the buttons the
 * claim detail page offers, and the rule table the backend enforces on the
 * update those buttons send. Neither copy is corrected here; the lemmas say
 * where they agree and witness where they part.
 */
module Agreement {
  import opened Results
  import opened Models
  import opened Workflow
  import opened Backend
  import opened ClaimDetail

  /**
   * The claim as the detail endpoint serializes it. Its response schema has no
   * adjuster field, so the page finds that field absent whatever is stored.
   */
  function ServedView(c: Claim): (v: ClaimView)
    ensures v.status == c.status
    ensures forall user: User :: user.role == Adjuster ==> AvailableActions(Some(v), Some(user)) == []
  {
    ClaimView(c.status, None)
  }

  /** The claim as the page expects it: status and assigned adjuster as stored. */
  function View(c: Claim): ClaimView {
    ClaimView(c.status, c.assignedAdjusterId)
  }

  /** The statuses the page offers `user` for the stored claim `c`, in button order. */
  function Offered(c: Claim, user: User): seq<ClaimStatus> {
    Targets(AvailableActions(Some(View(c)), Some(user)))
  }

  /** The moves the backend lets a manager make that the page never offers one. */
  const ManagerBackendOnly: set<(ClaimStatus, ClaimStatus)> := {
    (Submitted, Assigned),
    (Assigned, Investigating), (Assigned, Rejected),
    (Investigating, Approved), (Investigating, Rejected)
  }

  /** For agents, managers and adjusters, every button is a move the backend accepts. */
  lemma StaffButtonsAllowedByBackend(c: Claim, user: User, t: ClaimStatus)
    requires user.role in {Agent, Manager, Adjuster}
    requires t in Offered(c, user)
    ensures CanTransition(c.status, t, user.role)
  {
    if user.role == Agent {
      AgentTablesAgree(c, user);
    } else if user.role == Adjuster {
      OwningAdjusterTablesAgree(c, user);
    } else {
      ManagerGap(c, user, t);
    }
  }

  /** An agent's buttons are exactly the agent's row of the table, in the same order. */
  lemma AgentTablesAgree(c: Claim, user: User)
    requires user.role == Agent
    ensures Offered(c, user) == AllowedTargets(c.status, Agent)
  {
  }

  /**
   * An adjuster's buttons on a claim assigned to it are exactly the adjuster's
   * row of the table; on any other claim there are none.
   */
  lemma OwningAdjusterTablesAgree(c: Claim, user: User)
    requires user.role == Adjuster
    ensures c.assignedAdjusterId == Some(user.id) ==> Offered(c, user) == AllowedTargets(c.status, Adjuster)
    ensures c.assignedAdjusterId != Some(user.id) ==> Offered(c, user) == []
  {
  }

  /**
   * The manager's buttons are a strict part of the manager's row: the moves the
   * backend accepts and the page withholds are exactly the five listed.
   */
  lemma ManagerGap(c: Claim, user: User, t: ClaimStatus)
    requires user.role == Manager
    ensures t in Offered(c, user) ==> CanTransition(c.status, t, Manager)
    ensures CanTransition(c.status, t, Manager) && t !in Offered(c, user) <==> (c.status, t) in ManagerBackendOnly
  {
    var offered := Offered(c, user);
    match c.status
    case Submitted => assert offered == [UnderReview];
    case UnderReview => assert offered == [Assigned, Rejected];
    case Assigned => assert offered == [];
    case Investigating => assert offered == [];
    case Approved => assert offered == [Settled];
    case Rejected => assert offered == [];
    case Settled => assert offered == [];
  }

  /** Every move the backend accepts from an admin is offered to the admin. */
  lemma AdminBackendWithinButtons(c: Claim, user: User, t: ClaimStatus)
    requires user.role == Admin
    requires CanTransition(c.status, t, Admin)
    ensures t in Offered(c, user)
  {
    NoReturnToSubmittedNoSelfLoop(c.status, t, Admin);
    AdminGetsEveryOtherStatus(View(c), user, t);
  }

  /** At every status the page offers an admin some move the backend refuses. */
  lemma AdminButtonsBeyondBackend(c: Claim, user: User)
    requires user.role == Admin
    ensures exists t :: t in Offered(c, user) && !CanTransition(c.status, t, Admin)
  {
    var t := AdminRefusedTarget(c.status);
    AdminGetsEveryOtherStatus(View(c), user, t);
    assert t in Offered(c, user);
  }

  /** A status the page offers an admin at `s` and the backend refuses there. */
  function AdminRefusedTarget(s: ClaimStatus): (t: ClaimStatus)
    ensures t != s && t != Submitted && !CanTransition(s, t, Admin)
  {
    match s
    case Submitted => Investigating
    case UnderReview => Settled
    case Assigned => UnderReview
    case Investigating => UnderReview
    case Approved => UnderReview
    case Rejected => UnderReview
    case Settled => Rejected
  }

  /**
   * Out of rejected or settled the page offers an admin five moves, and the
   * backend refuses every one.
   */
  lemma AdminTerminalButtonsRefused(c: Claim, user: User)
    requires user.role == Admin
    requires c.status in {Rejected, Settled}
    ensures |Offered(c, user)| == 5
    ensures forall t :: t in Offered(c, user) ==> !CanTransition(c.status, t, Admin)
  {
    AdminGetsEveryOtherStatus(View(c), user, Submitted);
    forall t | t in Offered(c, user)
      ensures !CanTransition(c.status, t, Admin)
    {
      TerminalStatesAreDeadEnds(t, Admin);
    }
  }

  /**
   * Whatever button an agent, manager or adjuster clicks, a request the page
   * sends for it passes the backend's rule check and moves the claim to the
   * button's status, whatever payload it carries.
   */
  lemma StaffRequestsAccepted(db: Database, claimId: nat, user: User, i: nat, answer: Option<string>,
                              u: StatusUpdate, now: int)
    requires claimId in db.claims
    requires user.role in {Agent, Manager, Adjuster}
    requires i < |AvailableActions(Some(View(db.claims[claimId])), Some(user))|
    requires HandleActionClick(AvailableActions(Some(View(db.claims[claimId])), Some(user))[i], answer).Some?
    requires u.newStatus == HandleActionClick(AvailableActions(Some(View(db.claims[claimId])), Some(user))[i], answer).value.newStatus
    ensures UpdateClaimStatus(db, claimId, u, user, now).Success?
    ensures UpdateClaimStatus(db, claimId, u, user, now).value.claims[claimId].status
         == AvailableActions(Some(View(db.claims[claimId])), Some(user))[i].target
  {
    var c := db.claims[claimId];
    var a := AvailableActions(Some(View(c)), Some(user))[i];
    assert a.target == Offered(c, user)[i];
    StaffButtonsAllowedByBackend(c, user, a.target);
  }

  /**
   * The backend lets a manager move a submitted claim to assigned and an
   * assigned claim to investigating; the page offers neither.
   */
  lemma ManagerWitnesses(c: Claim, user: User)
    requires user.role == Manager
    ensures c.status == Submitted ==> CanTransition(Submitted, Assigned, Manager) && Assigned !in Offered(c, user)
    ensures c.status == Assigned ==>
      CanTransition(Assigned, Investigating, Manager) && Investigating !in Offered(c, user)
  {
  }

  /**
   * An adjuster not assigned to an assigned claim gets no button for it, yet
   * the backend accepts that adjuster's move of the claim to investigating.
   */
  lemma NonOwnerAdjusterDivergence(db: Database, claimId: nat, user: User, u: StatusUpdate, now: int)
    requires claimId in db.claims && db.claims[claimId].status == Assigned
    requires db.claims[claimId].assignedAdjusterId != Some(user.id)
    requires user.role == Adjuster && u.newStatus == Investigating
    ensures Offered(db.claims[claimId], user) == []
    ensures UpdateClaimStatus(db, claimId, u, user, now).Success?
  {
  }

  /**
   * As served, the page never offers an adjuster a button: it reads the
   * adjuster field of a response that has none.
   */
  lemma ServedAdjusterGetsNoButtons(c: Claim, user: User)
    requires user.role == Adjuster
    ensures AvailableActions(Some(ServedView(c)), Some(user)) == []
  {
  }

  /**
   * The adjuster a claim is assigned to may open it and may move it on, but
   * the page, reading the served claim, offers that adjuster nothing.
   */
  lemma ServedOwnerLosesButtons(db: Database, claimId: nat, user: User)
    requires claimId in db.claims
    requires db.claims[claimId].status in {Assigned, Investigating}
    requires user.role == Adjuster && db.claims[claimId].assignedAdjusterId == Some(user.id)
    ensures GetClaimDetail(db, claimId, user).Success?
    ensures |AllowedTargets(db.claims[claimId].status, Adjuster)| == 2
    ensures |Offered(db.claims[claimId], user)| == 2
    ensures AvailableActions(Some(ServedView(db.claims[claimId])), Some(user)) == []
  {
    OwningAdjusterTablesAgree(db.claims[claimId], user);
  }

  /** An update request as it reaches the server: query-string fields and JSON body fields. */
  datatype Wire = Wire(query: map<string, string>, body: map<string, string>)

  /**
   * `updateStatus` on the page: it puts the new status and the prompted value
   * into the JSON body of the request and leaves the query string empty.
   */
  function PageWire(r: Request): (w: Wire)
    ensures w.query == map[]
    ensures "new_status" in w.body && ParseStatus(w.body["new_status"]) == Some(r.newStatus)
    ensures r.payload.AdjusterIdText? ==>
      "assigned_adjuster_id" in w.body && w.body["assigned_adjuster_id"] == r.payload.text
    ensures r.payload.AmountText? ==>
      "approved_amount" in w.body && w.body["approved_amount"] == r.payload.text
  {
    StatusesClosed(r.newStatus);
    var extra := match r.payload
      case NoPayload => map[]
      case AdjusterIdText(t) => map["assigned_adjuster_id" := t]
      case AmountText(t) => map["approved_amount" := t];
    Wire(map[], extra["new_status" := StatusValue(r.newStatus)])
  }

  /**
   * How `update_claim_status` binds `new_status` as declared: a scalar
   * parameter, read from the query string. The body is not read. A missing
   * or unknown value is a 422.
   */
  function BindDeclared(w: Wire): (r: Result<ClaimStatus, HttpError>)
    ensures r.Success? <==> "new_status" in w.query && ParseStatus(w.query["new_status"]).Some?
    ensures r.Success? ==> StatusValue(r.value) == w.query["new_status"]
    ensures r.Failure? ==> r.error == Unprocessable
  {
    if "new_status" !in w.query then Failure(Unprocessable)
    else match ParseStatus(w.query["new_status"])
      case Some(s) => Success(s)
      case None => Failure(Unprocessable)
  }

  /** `new_status` bound from the JSON body, where the page puts it. */
  function BindBody(w: Wire): (r: Result<ClaimStatus, HttpError>)
    ensures r.Success? <==> "new_status" in w.body && ParseStatus(w.body["new_status"]).Some?
    ensures r.Success? ==> StatusValue(r.value) == w.body["new_status"]
    ensures r.Failure? ==> r.error == Unprocessable
  {
    if "new_status" !in w.body then Failure(Unprocessable)
    else match ParseStatus(w.body["new_status"])
      case Some(s) => Success(s)
      case None => Failure(Unprocessable)
  }

  /** As declared, every update the page sends is refused with a 422, whatever its status. */
  lemma PageUpdatesUnprocessable(r: Request)
    ensures BindDeclared(PageWire(r)) == Failure(Unprocessable)
  {
  }

  /** Read from the body, every update the page sends carries the status of its button. */
  lemma PageUpdatesBoundFromBody(r: Request)
    ensures BindBody(PageWire(r)) == Success(r.newStatus)
  {
  }

  /**
   * With the status bound from the body, a click on an offered button by an
   * agent, manager or adjuster moves the claim to that button's status.
   */
  lemma StaffClicksAcceptedFromBody(db: Database, claimId: nat, user: User, i: nat, answer: Option<string>,
                                    u: StatusUpdate, now: int)
    requires claimId in db.claims
    requires user.role in {Agent, Manager, Adjuster}
    requires i < |AvailableActions(Some(View(db.claims[claimId])), Some(user))|
    requires HandleActionClick(AvailableActions(Some(View(db.claims[claimId])), Some(user))[i], answer).Some?
    requires BindBody(PageWire(HandleActionClick(AvailableActions(Some(View(db.claims[claimId])), Some(user))[i], answer).value))
          == Success(u.newStatus)
    ensures UpdateClaimStatus(db, claimId, u, user, now).Success?
    ensures UpdateClaimStatus(db, claimId, u, user, now).value.claims[claimId].status
         == AvailableActions(Some(View(db.claims[claimId])), Some(user))[i].target
  {
    var r := HandleActionClick(AvailableActions(Some(View(db.claims[claimId])), Some(user))[i], answer).value;
    PageUpdatesBoundFromBody(r);
    StaffRequestsAccepted(db, claimId, user, i, answer, u, now);
  }
}

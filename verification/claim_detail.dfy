/**
 * The claim detail page of the web client: the buttons it offers for a claim
 * and the request each button sends.
 */
module ClaimDetail {
  import opened Results
  import opened Models

  /** The two fields of the loaded claim the page consults. */
  datatype ClaimView = ClaimView(status: ClaimStatus, assignedAdjusterId: Option<nat>)

  /**
   * A button: its title, the status it requests, and whether clicking it first
   * asks for an adjuster id or for an approved amount. A flag the page leaves
   * unset is false.
   */
  datatype Action = Action(title: string, target: ClaimStatus, needsAdjuster: bool, needsAmount: bool)

  /** The statuses offered in their own order. */
  function Targets(actions: seq<Action>): seq<ClaimStatus> {
    seq(|actions|, i requires 0 <= i < |actions| => actions[i].target)
  }


  /**
   * A button fit for a claim in `status`: it requests neither that status nor
   * submitted, asks for an adjuster exactly when it requests assigned, and for
   * an amount exactly when it requests approved.
   */
  predicate Fits(a: Action, status: ClaimStatus) {
    && a.target != status
    && a.target != Submitted
    && (a.needsAdjuster <==> a.target == Assigned)
    && (a.needsAmount <==> a.target == Approved)
  }

  predicate AllFit(actions: seq<Action>, status: ClaimStatus) {
    forall i :: 0 <= i < |actions| ==> Fits(actions[i], status)
  }

  const MoveToReview := Action("Move to Review", UnderReview, false, false)
  const Reject := Action("Reject", Rejected, false, false)
  const AssignToAdjuster := Action("Assign to Adjuster", Assigned, true, false)
  const Settle := Action("Settle", Settled, false, false)
  const StartInvestigation := Action("Start Investigation", Investigating, false, false)
  const Approve := Action("Approve", Approved, false, true)

  /** The buttons of an agent. */
  function AgentActions(status: ClaimStatus): (r: seq<Action>)
    ensures AllFit(r, status)
  {
    (if status == Submitted then [MoveToReview, Reject] else [])
    + (if status == UnderReview then [Reject] else [])
  }

  /** The buttons of a manager. */
  function ManagerActions(status: ClaimStatus): (r: seq<Action>)
    ensures AllFit(r, status)
  {
    (if status == Submitted then [MoveToReview] else [])
    + (if status == UnderReview then [AssignToAdjuster, Reject] else [])
    + (if status == Approved then [Settle] else [])
  }

  /** The buttons of an adjuster; `owns` says the claim is assigned to that adjuster. */
  function AdjusterActions(status: ClaimStatus, owns: bool): (r: seq<Action>)
    ensures AllFit(r, status)
    ensures !owns ==> r == []
  {
    (if status == Assigned && owns then [StartInvestigation, Reject] else [])
    + (if status == Investigating && owns then [Approve, Reject] else [])
  }

  /** The six statuses an admin is offered, in the page's order; submitted is not among them. */
  const AdminTargets: seq<ClaimStatus> := [UnderReview, Assigned, Investigating, Approved, Rejected, Settled]

  /** The admin's button for one status. */
  function AdminAction(s: ClaimStatus): Action {
    Action(AdminTitle(s), s, s == Assigned, s == Approved)
  }

  /**
   * The admin's button titles: "Move to " and the status value upper-cased,
   * its underscore replaced by a space.
   */
  function AdminTitle(s: ClaimStatus): string {
    match s
    case Submitted => "Move to SUBMITTED"
    case UnderReview => "Move to UNDER REVIEW"
    case Assigned => "Move to ASSIGNED"
    case Investigating => "Move to INVESTIGATING"
    case Approved => "Move to APPROVED"
    case Rejected => "Move to REJECTED"
    case Settled => "Move to SETTLED"
  }

  /** The candidate statuses other than the current one, in candidate order. */
  function OtherThan(candidates: seq<ClaimStatus>, current: ClaimStatus): (r: seq<ClaimStatus>)
    ensures forall s :: s in r <==> s in candidates && s != current
    ensures Distinct(candidates) ==> Distinct(r)
    ensures Distinct(candidates) ==> |r| == |candidates| - (if current in candidates then 1 else 0)
    ensures current !in candidates ==> r == candidates
    ensures |candidates| > 0 && candidates[0] != current ==> |r| > 0 && r[0] == candidates[0]
  {
    if candidates == [] then []
    else
      var head, tail := candidates[0], candidates[1..];
      assert candidates == [head] + tail;
      assert Distinct(candidates) ==> Distinct(tail) && head !in tail;
      var rest := OtherThan(tail, current);
      if head != current then [head] + rest else rest
  }

  /** The buttons of an admin: one per status of the page's list other than the current one. */
  function AdminActions(status: ClaimStatus): (r: seq<Action>)
    ensures AllFit(r, status)
    ensures Targets(r) == OtherThan(AdminTargets, status)
  {
    var targets := OtherThan(AdminTargets, status);
    var r := seq(|targets|, i requires 0 <= i < |targets| => AdminAction(targets[i]));
    assert AllFit(r, status) by {
      forall i | 0 <= i < |r|
        ensures Fits(r[i], status)
      {
        assert targets[i] in targets;
        assert targets[i] in AdminTargets;
      }
    }
    assert Targets(r) == targets;
    r
  }

  /**
   * `getAvailableActions`: nothing until both the claim and the user are loaded,
   * then the buttons of the user's role for the claim's status, in the order the
   * page appends them (the page's four role blocks exclude one another, and a
   * customer has none). No button requests the status the claim is already in or
   * submitted, and a button asks for an adjuster exactly when it requests
   * assigned and for an amount exactly when it requests approved.
   */
  function AvailableActions(claim: Option<ClaimView>, user: Option<User>): (r: seq<Action>)
    ensures claim.None? || user.None? ==> r == []
    ensures claim.Some? ==> forall i :: 0 <= i < |r| ==> r[i].target != claim.value.status
    ensures forall i :: 0 <= i < |r| ==> r[i].target != Submitted
    ensures forall i :: 0 <= i < |r| ==> (r[i].needsAdjuster <==> r[i].target == Assigned)
    ensures forall i :: 0 <= i < |r| ==> (r[i].needsAmount <==> r[i].target == Approved)
  {
    if claim.None? || user.None? then []
    else
      var role := user.value.role;
      var status := claim.value.status;
      var owns := claim.value.assignedAdjusterId == Some(user.value.id);
      match role
      case Customer => []
      case Agent => AgentActions(status)
      case Manager => ManagerActions(status)
      case Adjuster => AdjusterActions(status, owns)
      case Admin => AdminActions(status)
  }

  /** A customer is never offered a button. */
  lemma CustomerGetsNoActions(claim: ClaimView, user: User)
    requires user.role == Customer
    ensures AvailableActions(Some(claim), Some(user)) == []
  {
  }

  /** An adjuster is offered buttons only on a claim assigned to that adjuster. */
  lemma AdjusterNeedsOwnership(claim: ClaimView, user: User)
    requires user.role == Adjuster
    ensures claim.assignedAdjusterId != Some(user.id) ==> AvailableActions(Some(claim), Some(user)) == []
    ensures claim.assignedAdjusterId == Some(user.id) && claim.status in {Assigned, Investigating} ==>
      |AvailableActions(Some(claim), Some(user))| == 2
  {
  }

  /**
   * An admin is offered exactly one button per status other than submitted and
   * the claim's own: six on a submitted claim, five on any other.
   */
  lemma AdminGetsEveryOtherStatus(claim: ClaimView, user: User, s: ClaimStatus)
    requires user.role == Admin
    ensures s in Targets(AvailableActions(Some(claim), Some(user))) <==> s != Submitted && s != claim.status
    ensures Distinct(Targets(AvailableActions(Some(claim), Some(user))))
    ensures |AvailableActions(Some(claim), Some(user))| == if claim.status == Submitted then 6 else 5
  {
    var r := AvailableActions(Some(claim), Some(user));
    assert r == AdminActions(claim.status);
    assert |r| == |Targets(r)|;
    AdminListOtherThan(claim.status, s);
  }

  /** The page's admin list, less one status, holds every status but submitted and that one. */
  lemma AdminListOtherThan(current: ClaimStatus, s: ClaimStatus)
    ensures s in OtherThan(AdminTargets, current) <==> s != Submitted && s != current
    ensures Distinct(OtherThan(AdminTargets, current))
    ensures |OtherThan(AdminTargets, current)| == if current == Submitted then 6 else 5
  {
    assert Distinct(AdminTargets);
    assert s in AdminTargets <==> s != Submitted;
    assert current in AdminTargets <==> current != Submitted;
  }

  /** The order is the page's: two of its cases spelled out. */
  lemma ActionOrderExamples(adjusterId: Option<nat>, userId: nat)
    ensures Targets(AvailableActions(Some(ClaimView(Submitted, adjusterId)), Some(User(userId, Agent))))
      == [UnderReview, Rejected]
    ensures Targets(AvailableActions(Some(ClaimView(UnderReview, adjusterId)), Some(User(userId, Manager))))
      == [Assigned, Rejected]
  {
  }

  /** An admin's buttons follow the page's list: on an assigned claim, five in list order. */
  lemma AdminOrderExample(claim: ClaimView, user: User)
    requires user.role == Admin && claim.status == Assigned
    ensures Targets(AvailableActions(Some(claim), Some(user)))
      == [UnderReview, Investigating, Approved, Rejected, Settled]
  {
    assert AvailableActions(Some(claim), Some(user)) == AdminActions(Assigned);
    AdminListAssigned();
  }

  /** The page's admin list less assigned, in list order. */
  lemma AdminListAssigned()
    ensures OtherThan(AdminTargets, Assigned) == [UnderReview, Investigating, Approved, Rejected, Settled]
  {
  }

  /** What a button click sends beside the new status. */
  datatype Payload = NoPayload | AdjusterIdText(text: string) | AmountText(text: string)

  /** A status update the page sends. */
  datatype Request = Request(newStatus: ClaimStatus, payload: Payload)

  /** A prompt's answer counts only when it is neither cancelled nor empty. */
  predicate Truthy(answer: Option<string>) {
    answer.Some? && answer.value != ""
  }

  /**
   * `handleActionClick`: a button that needs an adjuster sends the prompted
   * adjuster id, else one that needs an amount sends the prompted amount, else
   * the bare status. A cancelled or empty prompt sends nothing. `answer` is
   * what the prompt returns.
   */
  function HandleActionClick(a: Action, answer: Option<string>): (r: Option<Request>)
    ensures r.None? <==> (a.needsAdjuster || a.needsAmount) && !Truthy(answer)
    ensures r.Some? ==> r.value.newStatus == a.target
    ensures r.Some? ==> (r.value.payload.AdjusterIdText? <==> a.needsAdjuster)
    ensures r.Some? ==> (r.value.payload.AmountText? <==> a.needsAmount && !a.needsAdjuster)
    ensures r.Some? && !r.value.payload.NoPayload? ==> Truthy(answer) && r.value.payload.text == answer.value
  {
    if a.needsAdjuster then
      if Truthy(answer) then Some(Request(a.target, AdjusterIdText(answer.value))) else None
    else if a.needsAmount then
      if Truthy(answer) then Some(Request(a.target, AmountText(answer.value))) else None
    else Some(Request(a.target, NoPayload))
  }

  /**
   * For every button the page offers, the adjuster id is sent exactly when it
   * requests assigned and the amount exactly when it requests approved.
   */
  lemma PayloadFollowsTarget(claim: Option<ClaimView>, user: Option<User>, i: nat, answer: Option<string>)
    requires i < |AvailableActions(claim, user)|
    ensures
      var a := AvailableActions(claim, user)[i];
      var r := HandleActionClick(a, answer);
      && (r.None? <==> (a.target == Assigned || a.target == Approved) && !Truthy(answer))
      && (r.Some? ==> r.value.newStatus == a.target)
      && (r.Some? ==> (r.value.payload.AdjusterIdText? <==> a.target == Assigned))
      && (r.Some? ==> (r.value.payload.AmountText? <==> a.target == Approved))
  {
  }
}

/** The vocabulary of the claims service: roles, claim statuses and the stored records. */
module Models {
  import opened Results

  /** The roles a user may hold (`UserRole`, a string enumeration). */
  datatype UserRole = Customer | Agent | Adjuster | Manager | Admin

  /** The statuses a claim may be in (`ClaimStatus`, a string enumeration). */
  datatype ClaimStatus = Submitted | UnderReview | Assigned | Investigating | Approved | Rejected | Settled

  /** No element of the sequence occurs twice. */
  predicate Distinct<T(==)>(xs: seq<T>) {
    forall i, j :: 0 <= i < j < |xs| ==> xs[i] != xs[j]
  }

  /** Both enumerations in declaration order. */
  const AllRoles: seq<UserRole> := [Customer, Agent, Adjuster, Manager, Admin]
  const AllStatuses: seq<ClaimStatus> :=
    [Submitted, UnderReview, Assigned, Investigating, Approved, Rejected, Settled]

  /** The string value each role carries on the wire and in the database. */
  function RoleValue(r: UserRole): string {
    match r
    case Customer => "customer"
    case Agent => "agent"
    case Adjuster => "adjuster"
    case Manager => "manager"
    case Admin => "admin"
  }

  /** The string value each status carries on the wire and in the database. */
  function StatusValue(s: ClaimStatus): string {
    match s
    case Submitted => "submitted"
    case UnderReview => "under_review"
    case Assigned => "assigned"
    case Investigating => "investigating"
    case Approved => "approved"
    case Rejected => "rejected"
    case Settled => "settled"
  }

  /** Reading a role back from its string value; any other string names no role. */
  function ParseRole(v: string): (r: Option<UserRole>)
    ensures r.Some? ==> RoleValue(r.value) == v
    ensures r.None? ==> forall role: UserRole :: RoleValue(role) != v
  {
    if v == "customer" then Some(Customer)
    else if v == "agent" then Some(Agent)
    else if v == "adjuster" then Some(Adjuster)
    else if v == "manager" then Some(Manager)
    else if v == "admin" then Some(Admin)
    else None
  }

  /** Reading a status back from its string value; any other string names no status. */
  function ParseStatus(v: string): (r: Option<ClaimStatus>)
    ensures r.Some? ==> StatusValue(r.value) == v
    ensures r.None? ==> forall status: ClaimStatus :: StatusValue(status) != v
  {
    if v == "submitted" then Some(Submitted)
    else if v == "under_review" then Some(UnderReview)
    else if v == "assigned" then Some(Assigned)
    else if v == "investigating" then Some(Investigating)
    else if v == "approved" then Some(Approved)
    else if v == "rejected" then Some(Rejected)
    else if v == "settled" then Some(Settled)
    else None
  }

  /** The role enumeration is closed: five members, each with its own string value. */
  lemma RolesClosed(r: UserRole)
    ensures |AllRoles| == 5 && r in AllRoles
    ensures forall i, j :: 0 <= i < j < |AllRoles| ==> RoleValue(AllRoles[i]) != RoleValue(AllRoles[j])
    ensures ParseRole(RoleValue(r)) == Some(r)
  {
  }

  /** The status enumeration is closed: seven members, each with its own string value. */
  lemma StatusesClosed(s: ClaimStatus)
    ensures |AllStatuses| == 7 && s in AllStatuses
    ensures forall i, j :: 0 <= i < j < |AllStatuses| ==> StatusValue(AllStatuses[i]) != StatusValue(AllStatuses[j])
    ensures ParseStatus(StatusValue(s)) == Some(s)
  {
  }

  /** The status a claim row takes when none is given. */
  const DefaultStatus: ClaimStatus := Submitted

  /** A monetary value in cents (the columns are decimals with two places). */
  type Amount = int

  /**
   * A stored claim. The adjuster, the estimated damage and the approved amount
   * are nullable columns; timestamps are opaque instants.
   */
  datatype Claim = Claim(
    id: nat,
    claimNumber: string,
    policyId: nat,
    customerId: nat,
    assignedAdjusterId: Option<nat>,
    status: ClaimStatus,
    incidentDate: int,
    incidentDescription: string,
    incidentLocation: string,
    estimatedDamage: Option<Amount>,
    approvedAmount: Option<Amount>,
    createdAt: int,
    updatedAt: int)

  /** The part of a user record the workflow looks at. */
  datatype User = User(id: nat, role: UserRole)

  /** The part of a policy record claim creation looks at. */
  datatype Policy = Policy(id: nat, customerId: nat)
}

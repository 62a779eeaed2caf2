/**
 * The backend's transition rule table: for each current status, the roles that
 * may move a claim and the statuses they may move it to.
 */
module Workflow {
  import opened Models

  /**
   * The table as the backend declares it, keyed by current status and then by
   * role. A role missing from a status's entry may do nothing there.
   */
  const Transitions: map<ClaimStatus, map<UserRole, seq<ClaimStatus>>> := map[
    Submitted := map[
      Agent := [UnderReview, Rejected],
      Manager := [UnderReview, Assigned],
      Admin := [UnderReview, Assigned, Rejected]],
    UnderReview := map[
      Agent := [Rejected],
      Manager := [Assigned, Rejected],
      Admin := [Assigned, Rejected]],
    Assigned := map[
      Adjuster := [Investigating, Rejected],
      Manager := [Investigating, Rejected],
      Admin := [Investigating, Approved, Rejected]],
    Investigating := map[
      Adjuster := [Approved, Rejected],
      Manager := [Approved, Rejected],
      Admin := [Approved, Rejected, Settled]],
    Approved := map[
      Admin := [Settled],
      Manager := [Settled]],
    Rejected := map[],
    Settled := map[]
  ]

  /**
   * The list of targets the table gives `role` at `current`, empty by default:
   * at most three, without repeats, and none for a customer or out of a
   * terminal status.
   */
  function AllowedTargets(current: ClaimStatus, role: UserRole): (targets: seq<ClaimStatus>)
    ensures |targets| <= 3
    ensures Distinct(targets)
    ensures role == Customer || current == Rejected || current == Settled ==> targets == []
  {
    var byRole := if current in Transitions then Transitions[current] else map[];
    if role in byRole then byRole[role] else []
  }

  /**
   * `can_transition_status`: whether `role` may move a claim from `current` to
   * `target`. An allowed move is never a customer's, never out of a terminal
   * status, never back to submitted or in place, always forward along the
   * rank, and always one the admin may make too.
   */
  function CanTransition(current: ClaimStatus, target: ClaimStatus, role: UserRole): (allowed: bool)
    ensures allowed ==> role != Customer && current != Rejected && current != Settled
    ensures allowed ==> target != Submitted && target != current && Rank(current) < Rank(target)
    ensures allowed ==> target in AllowedTargets(current, Admin)
  {
    target in AllowedTargets(current, role)
  }

  /** Whether some role may move a claim from `a` to `b`. */
  predicate SomeRoleMay(a: ClaimStatus, b: ClaimStatus) {
    exists role: UserRole :: CanTransition(a, b, role)
  }

  /**
   * Position along the forward path submitted, under_review, assigned,
   * investigating, approved, settled; rejected ranks with settled, at the end.
   */
  function Rank(s: ClaimStatus): nat {
    match s
    case Submitted => 0
    case UnderReview => 1
    case Assigned => 2
    case Investigating => 3
    case Approved => 4
    case Rejected => 5
    case Settled => 5
  }

  /** Rejected and settled are dead ends: nobody may move a claim out of them. */
  lemma TerminalStatesAreDeadEnds(target: ClaimStatus, role: UserRole)
    ensures !CanTransition(Rejected, target, role)
    ensures !CanTransition(Settled, target, role)
    ensures AllowedTargets(Rejected, role) == [] && AllowedTargets(Settled, role) == []
  {
  }

  /** A customer appears in no entry of the table, so may never move a claim. */
  lemma CustomerNeverTransitions(current: ClaimStatus, target: ClaimStatus)
    ensures !CanTransition(current, target, Customer)
    ensures AllowedTargets(current, Customer) == []
  {
  }

  /** No rule leads back to submitted, and no rule keeps a claim where it is. */
  lemma NoReturnToSubmittedNoSelfLoop(current: ClaimStatus, target: ClaimStatus, role: UserRole)
    requires CanTransition(current, target, role)
    ensures target != Submitted
    ensures target != current
  {
  }

  /**
   * Every rule moves strictly forward: rejection only from the four open
   * statuses, every other move to a later status on the forward path.
   */
  lemma TransitionsMoveForward(current: ClaimStatus, target: ClaimStatus, role: UserRole)
    requires CanTransition(current, target, role)
    ensures Rank(current) < Rank(target)
    ensures target == Rejected ==> current in {Submitted, UnderReview, Assigned, Investigating}
  {
  }

  /** At every status, an admin may do whatever any other role may do. */
  lemma AdminDominates(current: ClaimStatus, target: ClaimStatus, role: UserRole)
    requires CanTransition(current, target, role)
    ensures CanTransition(current, target, Admin)
  {
  }

  /** A sequence of statuses each of which some role may reach from the one before. */
  ghost predicate IsChain(path: seq<ClaimStatus>) {
    forall i :: 0 <= i < |path| - 1 ==> SomeRoleMay(path[i], path[i + 1])
  }

  /** Along a chain, the rank grows by at least one per step. */
  lemma {:induction false} ChainRankGrows(path: seq<ClaimStatus>, i: nat, j: nat)
    requires IsChain(path)
    requires i <= j < |path|
    ensures Rank(path[i]) + (j - i) <= Rank(path[j])
    decreases j - i
  {
    if i < j {
      assert SomeRoleMay(path[i], path[i + 1]);
      var role: UserRole :| CanTransition(path[i], path[i + 1], role);
      TransitionsMoveForward(path[i], path[i + 1], role);
      ChainRankGrows(path, i + 1, j);
    }
  }

  /** A chain of allowed transitions has at most five steps and never revisits a status. */
  lemma ChainsAreShortAndAcyclic(path: seq<ClaimStatus>)
    requires IsChain(path)
    ensures |path| <= 6
    ensures Distinct(path)
  {
    if |path| > 0 {
      ChainRankGrows(path, 0, |path| - 1);
    }
    forall i, j | 0 <= i < j < |path|
      ensures path[i] != path[j]
    {
      ChainRankGrows(path, i, j);
    }
  }

  /** The longest chain: a claim settled along the whole forward path. */
  lemma LongestChainExists()
    ensures IsChain([Submitted, UnderReview, Assigned, Investigating, Approved, Settled])
  {
    var path := [Submitted, UnderReview, Assigned, Investigating, Approved, Settled];
    forall i | 0 <= i < |path| - 1
      ensures SomeRoleMay(path[i], path[i + 1])
    {
      assert CanTransition(path[i], path[i + 1], Admin);
    }
  }
}

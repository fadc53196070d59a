/**
 app/trust/membership.py: the village register's state machine, prioritised rules from
 top to bottom.
 */
module Membership {
  import opened Common

  datatype State = Provisional | Member | Warned | Penalized | Excluded

  datatype MembershipPolicy = MembershipPolicy(
    promoteMinObservations: real, promoteMinLower: real, warnBelow: real, penalizeBelow: real,
    excludeViolations: int, recoveryPenaltyPerViolation: real, promoteMinHonesty: real)

  const DEFAULT_MEMBERSHIP_POLICY: MembershipPolicy :=
    MembershipPolicy(5.0, 0.5, 0.4, 0.25, 4, 0.05, 0.5)

  function RecoveryBar(violations: int, policy: MembershipPolicy): real {
    policy.promoteMinLower + policy.recoveryPenaltyPerViolation * violations as real
  }

  function EvaluateTransition(state: State, scoreLower: real, observations: real, violations: int,
                              honesty: Option<real>, policy: MembershipPolicy): State
  {
    if state == Excluded || violations >= policy.excludeViolations then Excluded
    else if observations < policy.promoteMinObservations then state
    else if scoreLower < policy.penalizeBelow then Penalized
    else if scoreLower < policy.warnBelow then Warned
    else if scoreLower >= RecoveryBar(violations, policy) then
      if honesty.Some? && honesty.value < policy.promoteMinHonesty then state else Member
    else state
  }
}

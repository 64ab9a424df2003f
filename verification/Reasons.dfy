/** The machine-stable reason codes of a decision. */
module Reasons {
  datatype ReasonCode =
    | ALLOWED
    | UNKNOWN_TOOL
    | CAPABILITY_MISSING
    | AGENT_PROSE_REJECTED
    | POLICY_MISS
    | KILL_ACTIVE
    | LATE_EFFECT_FENCE
    | ADMISSION_CONSUMED
    | SUSPEND_ACTIVE
    | APPROVAL_INVALID
    | APPROVAL_EXPIRED
    | APPROVAL_CONSUMED
    | APPROVAL_BINDING_MISMATCH
    | APPROVAL_STATE_MISMATCH
    | APPROVAL_PRINCIPAL_MISMATCH
    | APPROVAL_IMPLEMENTATION_MISMATCH
    | APPROVAL_REVOKED
    | ENVELOPE_INVALID
    | TOOL_NOT_ALLOWLISTED_AND_NO_CAPABILITY
}

/** Entities several services read: the human review actions of a session. */
module Models {

  datatype ActionStatus = Pending | Resolved | Cancelled | Superseded | Stale

  datatype ActionType = ApproveType | EditType | RejectType | VerifyEvidenceType | EscalateType

  /** What a reviewer submitted with a decision; only its structure matters to the policy. */
  datatype Payload = NoPayload | EmptyPayload | FreeTextPayload | StructuredPayload

  datatype HumanAction = HumanAction(
    id: string,
    stageId: int,
    version: int,
    nodeId: string,
    sourceType: string,
    actionType: ActionType,
    status: ActionStatus,
    decision: string,
    note: string,
    payloadAfter: Payload,
    blocking: bool,
    supersededBy: string)
}

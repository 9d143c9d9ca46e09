/** The call-center record type and the fixed six-call data set that every
    analytics query runs against. */
module CallRecords {
  import opened Wrappers

  datatype CallType = Inbound | Outbound

  datatype Priority = Low | Medium | High | Urgent {
    /** The string the record carries, used as a breakdown key. */
    function Name(): string {
      match this
      case Low => "low"
      case Medium => "medium"
      case High => "high"
      case Urgent => "urgent"
    }
  }

  datatype Status = Open | InProgress | Resolved | Escalated | Closed {
    function Name(): string {
      match this
      case Open => "open"
      case InProgress => "in-progress"
      case Resolved => "resolved"
      case Escalated => "escalated"
      case Closed => "closed"
    }
  }

  /** One handled phone call. Optional fields are `None` where the record
      leaves them `undefined`; durations and scores are whole numbers. */
  datatype CallRecord = CallRecord(
    id: string,
    customerId: string,
    agentId: string,
    agentName: string,
    department: string,
    callType: CallType,
    category: string,
    priority: Priority,
    status: Status,
    startTime: string,
    endTime: Option<string>,
    duration: Option<nat>,
    resolutionTime: Option<nat>,
    customerSatisfaction: Option<nat>,
    firstCallResolution: bool,
    transferCount: nat,
    notes: string)

  /** The fixture: three resolved calls, one in progress, one escalated and
      one closed, over four departments and four agents. */
  const SampleCallCenterData: seq<CallRecord> := [
    CallRecord("call_001", "cust_123", "agent_001", "Sarah Johnson", "Technical Support", Inbound,
      "Technical Issue", High, Resolved, "2024-01-15T09:30:00Z", Some("2024-01-15T09:45:00Z"),
      Some(15), Some(15), Some(5), true, 0, "Customer had login issues, resolved by password reset"),
    CallRecord("call_002", "cust_456", "agent_002", "Mike Chen", "Billing", Inbound,
      "Billing Inquiry", Medium, Resolved, "2024-01-15T10:15:00Z", Some("2024-01-15T10:28:00Z"),
      Some(13), Some(13), Some(4), true, 0, "Billing dispute resolved, refund processed"),
    CallRecord("call_003", "cust_789", "agent_003", "Emily Rodriguez", "Sales", Outbound,
      "Follow-up", Low, Closed, "2024-01-15T11:00:00Z", Some("2024-01-15T11:12:00Z"),
      Some(12), Some(12), Some(4), true, 0, "Follow-up on recent purchase, customer satisfied"),
    CallRecord("call_004", "cust_101", "agent_001", "Sarah Johnson", "Technical Support", Inbound,
      "Technical Issue", Urgent, Escalated, "2024-01-15T14:30:00Z", Some("2024-01-15T15:15:00Z"),
      Some(45), None, Some(2), false, 2, "Complex technical issue escalated to Level 2 support"),
    CallRecord("call_005", "cust_202", "agent_004", "David Kim", "Customer Service", Inbound,
      "General Inquiry", Low, Resolved, "2024-01-15T16:00:00Z", Some("2024-01-15T16:08:00Z"),
      Some(8), Some(8), Some(5), true, 0, "Product information inquiry, customer satisfied"),
    CallRecord("call_006", "cust_303", "agent_002", "Mike Chen", "Billing", Inbound,
      "Billing Inquiry", Medium, InProgress, "2024-01-15T16:30:00Z", None,
      None, None, None, false, 0, "Currently investigating billing discrepancy")
  ]
}

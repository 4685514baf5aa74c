/** Types shared by every handler of the civic-report program: account keys,
    the fixed-width integers of the on-chain records, the report status and
    category enums, the program's error codes and the escalation details that
    a report embeds. */
module Types {

  /** Unsigned and signed machine integers of the on-chain records. */
  type U8 = x: int | 0 <= x < 0x100
  type U64 = x: int | 0 <= x < 0x1_0000_0000_0000_0000
  type I64 = x: int | -0x8000_0000_0000_0000 <= x < 0x8000_0000_0000_0000

  /** A 32-byte account public key. */
  type Pubkey = s: seq<U8> | |s| == 32 witness seq(32, i => 0)

  /** The key whose bytes are all zero: what a freshly allocated account holds. */
  function ZeroKey(): Pubkey { seq(32, i => 0) }

  /** The identifier a caller names a report by. */
  type ReportId = U64

  /** A point in time, in seconds of the cluster clock. */
  type Timestamp = I64

  datatype Option<+T> = None | Some(value: T)

  datatype ReportCategory =
    | RoadIssue
    | StreetLight
    | PublicFacility
    | EnvironmentalConcern
    | OtherCategory

  datatype ReportStatus =
    | Submitted
    | UnderReview
    | Approved
    | Resolved
    | Rejected

  datatype ErrorCode =
    | InvalidStatusTransition
    | ReportNotFound
    | InsufficientFunds
    | Unauthorized

  /** What a handler returns: success, or the typed error that aborted it. */
  datatype Outcome = Ok | Err(error: ErrorCode)

  datatype EscalationReason =
    | Urgent
    | HighImpact
    | PublicSafety
    | RecurringIssue
    | OtherReason

  /** The record an escalation attaches to its report. */
  datatype EscalationDetails = EscalationDetails(
    reason: EscalationReason,
    description: string,
    escalatedAt: Timestamp,
    escalatedBy: Pubkey)
}

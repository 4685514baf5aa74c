/** The report account and the handler that fills it in on submission. */
module Submission {
  import opened Types

  /** The value held by a report account at one moment. */
  datatype ReportView = ReportView(
    id: ReportId,
    submitter: Pubkey,
    description: string,
    location: string,
    mediaHash: string,
    timestamp: Timestamp,
    votes: int,
    status: ReportStatus,
    escalation: Option<EscalationDetails>)

  /** A freshly allocated report account: its data is all zero bytes, which
      decode as the zero key, empty strings, zero numbers, the first status
      variant and no escalation. */
  function Blank(id: ReportId): ReportView {
    ReportView(id, ZeroKey(), "", "", "", 0, 0, Submitted, None)
  }

  class Report {
    /** The account's own address, abstracted to the id callers name it by. */
    const id: ReportId
    var submitter: Pubkey
    var description: string
    var location: string
    var mediaHash: string
    var timestamp: Timestamp
    var votes: int
    var status: ReportStatus
    var escalation: Option<EscalationDetails>

    function View(): ReportView
      reads this
    {
      ReportView(id, submitter, description, location, mediaHash, timestamp, votes, status, escalation)
    }

    /** Allocation of the account, before any handler has written to it. */
    constructor Allocate(id: ReportId)
      ensures View() == Blank(id)
    {
      this.id := id;
      submitter := ZeroKey();
      description, location, mediaHash := "", "", "";
      timestamp, votes := 0, 0;
      status, escalation := Submitted, None;
    }
  }

  /** The report a submission leaves behind: the signer as submitter, the
      text fields as given, the supplied time and a zero tally. Id, status and
      escalation are not written by the handler. */
  function AfterSubmit(v: ReportView, signer: Pubkey, description: string, location: string,
                     mediaHash: string, now: Timestamp): (r: ReportView)
    ensures r.id == v.id && r.status == v.status && r.escalation == v.escalation
    ensures r.submitter == signer && r.timestamp == now && r.votes == 0
    ensures r.description == description && r.location == location && r.mediaHash == mediaHash
  {
    v.(submitter := signer, description := description, location := location,
       mediaHash := mediaHash, timestamp := now, votes := 0)
  }

  /** Fills in a report account. No field is validated, so it always succeeds. */
  method SubmitReport(report: Report, signer: Pubkey, description: string, location: string,
                      mediaHash: string, now: Timestamp) returns (r: Outcome)
    modifies report
    ensures r == Ok
    ensures report.View() == AfterSubmit(old(report.View()), signer, description, location, mediaHash, now)
  {
    report.submitter := signer;
    report.description := description;
    report.location := location;
    report.mediaHash := mediaHash;
    report.timestamp := now;
    report.votes := 0;
    r := Ok;
  }

  /** Submitting into a freshly allocated account yields a report that is
      Submitted, carries no escalation and has a zero tally, whatever the
      text fields hold (no length is checked). */
  lemma SubmitFresh(id: ReportId, signer: Pubkey, description: string, location: string,
                       mediaHash: string, now: Timestamp)
    ensures AfterSubmit(Blank(id), signer, description, location, mediaHash, now)
         == ReportView(id, signer, description, location, mediaHash, now, 0, Submitted, None)
  {
  }
}

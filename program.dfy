/** The program's global state and its entry points, which forward to the
    handlers. */
module Program {
  import opened Types
  import Submission
  import Voting
  import Escalation

  /** The process-wide state account. */
  class ProgramState {
    var authority: Pubkey
    var bump: U8
    var reportCount: U64
    var totalRewardsDistributed: U64

    /** Allocation of the account, before initialize has written to it. */
    constructor Allocate()
      ensures authority == ZeroKey() && bump == 0
      ensures reportCount == 0 && totalRewardsDistributed == 0
    {
      authority, bump := ZeroKey(), 0;
      reportCount, totalRewardsDistributed := 0, 0;
    }
  }

  /** Records the signer as the authority, stores the bump and zeroes both
      counters. It always succeeds. */
  method Initialize(state: ProgramState, signer: Pubkey, bump: U8) returns (r: Outcome)
    modifies state
    ensures r == Ok
    ensures state.authority == signer && state.bump == bump
    ensures state.reportCount == 0 && state.totalRewardsDistributed == 0
  {
    state.authority := signer;
    state.bump := bump;
    state.reportCount := 0;
    state.totalRewardsDistributed := 0;
    r := Ok;
  }

  /** Allocates a report account and submits into it. The category is
      accepted but not stored, and the report counter is not touched. */
  method SubmitReport(id: ReportId, signer: Pubkey, description: string, location: string,
                      mediaHash: string, category: ReportCategory, now: Timestamp)
    returns (report: Submission.Report, r: Outcome)
    ensures fresh(report) && r == Ok
    ensures report.View()
         == Submission.ReportView(id, signer, description, location, mediaHash, now, 0, Submitted, None)
  {
    report := new Submission.Report.Allocate(id);
    r := Submission.SubmitReport(report, signer, description, location, mediaHash, now);
  }

  /** Forwards the report id and the vote type unchanged to the voting handler. */
  method VoteOnReport(report: Submission.Report, reportId: ReportId, voteType: Voting.VoteType)
    returns (r: Outcome)
    modifies report
    ensures r == Ok
    ensures report.View() == Voting.AfterVote(old(report.View()), voteType)
  {
    r := Voting.VoteOnReport(report, reportId, voteType);
  }

  /** Forwards to the escalation handler, which consults the placeholder
      reputation check. */
  method EscalateReport(report: Submission.Report, reportId: ReportId, signer: Pubkey,
                        reason: EscalationReason, description: string, now: Timestamp)
    returns (r: Outcome)
    modifies report
    ensures r != Err(Unauthorized)
    ensures Escalation.Transition(report.View(), r)
         == Escalation.Escalated(old(report.View()), reportId, signer, reason, description, now,
                                 Escalation.HasSufficientReputation)
  {
    r := Escalation.EscalateReport(report, reportId, signer, reason, description, now,
                                   Escalation.HasSufficientReputation);
  }
}

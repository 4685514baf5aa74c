/** The voting handler: one vote moves a report's net tally by one unit. */
module Voting {
  import opened Types
  import opened Submission

  datatype VoteType = Upvote | Downvote

  /** The change one vote makes to the net tally. */
  function Delta(voteType: VoteType): (d: int)
    ensures d == 1 || d == -1
    ensures d == 1 <==> voteType == Upvote
  {
    match voteType
    case Upvote => 1
    case Downvote => -1
  }

  /** The report after one vote: the tally moves by Delta, nothing else changes. */
  function AfterVote(v: ReportView, voteType: VoteType): (r: ReportView)
    ensures r.votes == v.votes + Delta(voteType)
    ensures r.(votes := v.votes) == v
  {
    v.(votes := v.votes + Delta(voteType))
  }

  /** Applies one vote. The report id is not consulted, and there is neither a
      status guard nor a repeat-voter guard, so the handler always succeeds. */
  method VoteOnReport(report: Report, reportId: ReportId, voteType: VoteType) returns (r: Outcome)
    modifies report
    ensures r == Ok
    ensures report.View() == AfterVote(old(report.View()), voteType)
  {
    match voteType {
      case Upvote => report.votes := report.votes + 1;
      case Downvote => report.votes := report.votes - 1;
    }
    r := Ok;
  }

  /** A vote followed by the opposite vote restores the report exactly. */
  lemma OppositeVotesCancel(v: ReportView, voteType: VoteType)
    ensures AfterVote(AfterVote(v, voteType), if voteType == Upvote then Downvote else Upvote) == v
  {
  }
}

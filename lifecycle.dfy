/** A report after submission, driven by any sequence of the vote and escalate
    instructions the program accepts, each applied atomically in order. */
module Lifecycle {
  import opened Types
  import opened Submission
  import opened Voting
  import opened Escalation

  datatype Instruction =
    | Vote(reportId: ReportId, voteType: VoteType)
    | Escalate(reportId: ReportId, user: Pubkey, reason: EscalationReason,
               description: string, now: Timestamp)

  /** The report after one instruction, successful or not. */
  function Step(v: ReportView, ins: Instruction, hasRep: Pubkey -> bool): ReportView {
    match ins
    case Vote(_, voteType) => AfterVote(v, voteType)
    case Escalate(reportId, user, reason, description, now) =>
      Escalated(v, reportId, user, reason, description, now, hasRep).report
  }

  /** The report after a sequence of instructions. */
  function Run(v: ReportView, ins: seq<Instruction>, hasRep: Pubkey -> bool): ReportView
    decreases |ins|
  {
    if ins == [] then v else Run(Step(v, ins[0], hasRep), ins[1..], hasRep)
  }

  /** The number of votes of the given direction in a sequence of instructions,
      whatever report id they name. */
  function CountVotes(ins: seq<Instruction>, voteType: VoteType): nat
    decreases |ins|
  {
    if ins == [] then 0
    else (if ins[0].Vote? && ins[0].voteType == voteType then 1 else 0) + CountVotes(ins[1..], voteType)
  }

  /** Statuses and escalations that the handlers can produce from a fresh
      report: Submitted with no escalation, or UnderReview with one. */
  predicate Consistent(v: ReportView) {
    (v.status == Submitted && v.escalation.None?) ||
    (v.status == UnderReview && v.escalation.Some?)
  }

  /** No handler writes the id, submitter, text fields or timestamp of an
      existing report. */
  lemma {:induction false} RunKeepsRecord(v: ReportView, ins: seq<Instruction>, hasRep: Pubkey -> bool)
    ensures Run(v, ins, hasRep).(votes := v.votes, status := v.status, escalation := v.escalation) == v
    decreases |ins|
  {
    if ins != [] {
      var w := Step(v, ins[0], hasRep);
      RunKeepsRecord(w, ins[1..], hasRep);
    }
  }

  /** The tally after any sequence is the initial tally plus the upvotes minus
      the downvotes; escalations do not touch it. */
  lemma {:induction false} RunTally(v: ReportView, ins: seq<Instruction>, hasRep: Pubkey -> bool)
    ensures Run(v, ins, hasRep).votes == v.votes + CountVotes(ins, Upvote) - CountVotes(ins, Downvote)
    decreases |ins|
  {
    if ins != [] {
      RunTally(Step(v, ins[0], hasRep), ins[1..], hasRep);
    }
  }

  /** Status only ever moves from Submitted to UnderReview. A report in
      Approved, Resolved or Rejected keeps its status and its escalation. */
  lemma {:induction false} RunStatus(v: ReportView, ins: seq<Instruction>, hasRep: Pubkey -> bool)
    ensures var w := Run(v, ins, hasRep);
            w.status == v.status || (v.status == Submitted && w.status == UnderReview)
    ensures !Escalatable(v.status) ==>
            Run(v, ins, hasRep).status == v.status && Run(v, ins, hasRep).escalation == v.escalation
    decreases |ins|
  {
    if ins != [] {
      RunStatus(Step(v, ins[0], hasRep), ins[1..], hasRep);
    }
  }

  /** The escalation details an escalate instruction would attach. */
  function DetailsOf(ins: Instruction): EscalationDetails
    requires ins.Escalate?
  {
    EscalationDetails(ins.reason, ins.description, ins.now, ins.user)
  }

  /** Escalation details are never invented: if a sequence changes them, the
      report ends UnderReview carrying the details of one of the escalate
      instructions of that sequence. */
  lemma {:induction false} RunEscalationOrigin(v: ReportView, ins: seq<Instruction>, hasRep: Pubkey -> bool)
    ensures var w := Run(v, ins, hasRep);
            w.escalation == v.escalation ||
            (w.status == UnderReview &&
             exists k :: 0 <= k < |ins| && ins[k].Escalate? && w.escalation == Some(DetailsOf(ins[k])))
    decreases |ins|
  {
    if ins != [] {
      var u := Step(v, ins[0], hasRep);
      var w := Run(v, ins, hasRep);
      assert w == Run(u, ins[1..], hasRep);
      RunEscalationOrigin(u, ins[1..], hasRep);
      if w.escalation != u.escalation {
        var k :| 0 <= k < |ins[1..]| && ins[1..][k].Escalate? && w.escalation == Some(DetailsOf(ins[1..][k]));
        assert ins[k + 1] == ins[1..][k];
      } else if u.escalation != v.escalation {
        assert ins[0].Escalate? && u.status == UnderReview && u.escalation == Some(DetailsOf(ins[0]));
        RunStatus(u, ins[1..], hasRep);
      }
    }
  }

  /** Every report reachable from a consistent one is consistent: escalation
      details are present exactly when the report is UnderReview, and neither
      Approved, Resolved nor Rejected is ever reached. */
  lemma {:induction false} RunConsistent(v: ReportView, ins: seq<Instruction>, hasRep: Pubkey -> bool)
    requires Consistent(v)
    ensures Consistent(Run(v, ins, hasRep))
    decreases |ins|
  {
    if ins != [] {
      RunConsistent(Step(v, ins[0], hasRep), ins[1..], hasRep);
    }
  }

  /** A freshly submitted report is consistent, so every report the handlers
      can produce from it is. */
  lemma {:induction false} SubmittedReportsStayConsistent(id: ReportId, signer: Pubkey, description: string,
                                                         location: string, mediaHash: string, now: Timestamp,
                                                         ins: seq<Instruction>, hasRep: Pubkey -> bool)
    ensures Consistent(Run(AfterSubmit(Blank(id), signer, description, location, mediaHash, now), ins, hasRep))
  {
    RunConsistent(AfterSubmit(Blank(id), signer, description, location, mediaHash, now), ins, hasRep);
  }
}

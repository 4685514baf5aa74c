/** The escalation handler: a guarded move of a report to UnderReview with
    the caller's escalation details attached. */
module Escalation {
  import opened Types
  import opened Submission

  /** The reputation check of the source: a placeholder that admits everyone. */
  predicate HasSufficientReputation(user: Pubkey) {
    true
  }

  /** The statuses from which a report may be escalated. */
  predicate Escalatable(status: ReportStatus) {
    status == Submitted || status == UnderReview
  }

  /** A report together with the outcome of the handler that produced it. */
  datatype Transition = Transition(report: ReportView, outcome: Outcome)

  /** Escalation as a function of the report before the call. The guards run
      in the order id, status, reputation; the first that fails names the
      error and leaves the report as it was. */
  function Escalated(v: ReportView, reportId: ReportId, user: Pubkey, reason: EscalationReason,
                     description: string, now: Timestamp, hasRep: Pubkey -> bool): (t: Transition)
    ensures t.outcome == Err(ReportNotFound) <==> v.id != reportId
    ensures t.outcome == Err(InvalidStatusTransition) <==> v.id == reportId && !Escalatable(v.status)
    ensures t.outcome == Err(Unauthorized) <==> v.id == reportId && Escalatable(v.status) && !hasRep(user)
    ensures t.outcome == Ok <==> v.id == reportId && Escalatable(v.status) && hasRep(user)
    ensures t.outcome.Err? ==> t.report == v
    ensures t.outcome == Ok ==> t.report.status == UnderReview
    ensures t.outcome == Ok ==> t.report.escalation == Some(EscalationDetails(reason, description, now, user))
    ensures t.report.(status := v.status, escalation := v.escalation) == v
  {
    if v.id != reportId then
      Transition(v, Err(ReportNotFound))
    else if v.status != Submitted && v.status != UnderReview then
      Transition(v, Err(InvalidStatusTransition))
    else if !hasRep(user) then
      Transition(v, Err(Unauthorized))
    else
      Transition(v.(status := UnderReview,
                    escalation := Some(EscalationDetails(reason, description, now, user))), Ok)
  }

  /** Escalates a report, returning early at the first failing guard. */
  method EscalateReport(report: Report, reportId: ReportId, user: Pubkey, reason: EscalationReason,
                        description: string, now: Timestamp, hasRep: Pubkey -> bool) returns (r: Outcome)
    modifies report
    ensures Transition(report.View(), r)
         == Escalated(old(report.View()), reportId, user, reason, description, now, hasRep)
  {
    if report.id != reportId {
      return Err(ReportNotFound);
    }
    if report.status != Submitted && report.status != UnderReview {
      return Err(InvalidStatusTransition);
    }
    if !hasRep(user) {
      return Err(Unauthorized);
    }
    var details := EscalationDetails(reason, description, now, user);
    report.status := UnderReview;
    report.escalation := Some(details);
    r := Ok;
  }

  /** With the placeholder reputation check the Unauthorized branch is dead:
      escalation succeeds exactly when the id matches and the status allows it. */
  lemma PlaceholderAdmitsAll(v: ReportView, reportId: ReportId, user: Pubkey, reason: EscalationReason,
                             description: string, now: Timestamp)
    ensures var t := Escalated(v, reportId, user, reason, description, now, HasSufficientReputation);
            t.outcome != Err(Unauthorized) &&
            (t.outcome == Ok <==> v.id == reportId && Escalatable(v.status))
  {
  }

  /** Escalating an escalated report again succeeds and keeps only the later
      details. */
  lemma ReEscalationKeepsLatest(v: ReportView, reportId: ReportId,
                                user1: Pubkey, reason1: EscalationReason, description1: string, now1: Timestamp,
                                user2: Pubkey, reason2: EscalationReason, description2: string, now2: Timestamp,
                                hasRep: Pubkey -> bool)
    requires Escalated(v, reportId, user1, reason1, description1, now1, hasRep).outcome == Ok
    requires hasRep(user2)
    ensures var t1 := Escalated(v, reportId, user1, reason1, description1, now1, hasRep);
            var t2 := Escalated(t1.report, reportId, user2, reason2, description2, now2, hasRep);
            t2.outcome == Ok && t2.report.status == UnderReview &&
            t2.report.escalation == Some(EscalationDetails(reason2, description2, now2, user2)) &&
            t2.report == t1.report.(escalation := t2.report.escalation)
  {
  }
}

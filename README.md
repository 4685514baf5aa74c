# Civic report program: a Dafny model

This project models the on-chain core of a civic-issue reporting program, an
Anchor program for Solana. Citizens submit reports, vote on them and escalate
them. Each report is one account. Three handlers change it:

- **submission** fills in a freshly allocated report account. The submitter is
  the signer, the text fields are copied as given, the time comes from the
  clock and the tally is zero.
- **voting** moves the report's net tally by exactly one unit up or down.
- **escalation** checks three guards in order: the report id, the status
  (Submitted or UnderReview) and a reputation check. It then moves the report
  to UnderReview and replaces its embedded escalation details.

The program's global state account is set up once by `initialize`.

Modules:

- `Types` (`types.dfy`): keys, fixed-width integers, the status, category,
  error and escalation-reason enums, and `EscalationDetails`.
- `Submission` (`submission.dfy`): the `Report` account class, its value view
  `ReportView`, and the submission handler.
- `Voting` (`voting.dfy`): the vote handler.
- `Escalation` (`escalation.dfy`): the escalation handler and the placeholder
  reputation check.
- `Program` (`program.dfy`): `ProgramState`, `initialize`, and the entry points
  that forward to the handlers.
- `Lifecycle` (`lifecycle.dfy`): replays any sequence of vote and escalate
  instructions against a report. It proves what holds over a report's whole
  life.

Accounts updated in place are classes. Each handler is a method that
`modifies` its account. It is specified by a pure function of the account's
value before the call (`AfterSubmit`, `AfterVote`, `Escalated`), and the
lemmas are stated about those functions.

Inputs from outside the program are parameters:
- the clock time, as `now`;
- the signer's key;
- the reputation check, as a predicate `hasRep`. The program's own check is
  `Escalation.HasSufficientReputation`, which admits every caller, and the
  entry point passes it.

Where the code and its design description disagree, the model follows the code.
The code has no approval or rejection thresholds, no duplicate-vote record, no
length limits on text fields, no reward-once flag and no stored category, so
the model has none of them either. `Lifecycle.RunConsistent` makes the result
explicit: starting from a submitted report, the handlers only ever reach
Submitted (with no escalation) or UnderReview (with escalation details).
Approved, Resolved and Rejected exist only as enum values.

Reconciliations of the source:
- The `Report` struct at `contracts/src/submission/mod.rs:12-20` has no `status`
  or `escalation` field, but the escalation handler reads and writes both. The
  model includes them.
- The escalation handler compares the report's account key with a `u64` id.
  The model gives each report an abstract `id` and compares that.
- A freshly allocated account holds all-zero data. This decodes as the zero
  key, empty strings, zero numbers, the first status variant (Submitted) and
  no escalation (`Submission.Blank`).

## Model

| member | source | states |
|---|---|---|
| `Submission.Report.Allocate` | contracts/src/submission/mod.rs:7-20 | a newly allocated report account holds zero data: Submitted, no escalation, zero tally, empty text |
| `Submission.AfterSubmit` | contracts/src/submission/mod.rs:26-31 | submission sets submitter to the signer, stores the three text fields exactly as given, sets the timestamp to the supplied time and the tally to 0, and leaves id, status and escalation alone |
| `Submission.SubmitReport` | contracts/src/submission/mod.rs:22-34 | the handler always returns Ok, does no length validation, and leaves the account equal to `AfterSubmit` of its previous value |
| `Submission.SubmitFresh` | contracts/src/submission/mod.rs:22-33 | submitting into a fresh account yields a Submitted report with no escalation and zero votes, for any text fields |
| `Voting.Delta` | contracts/src/voting/mod.rs:20-23 | a vote changes the tally by exactly one unit, +1 exactly for an Upvote and -1 for a Downvote |
| `Voting.AfterVote` | contracts/src/voting/mod.rs:18-23 | a vote adds `Delta` to `votes` and changes no other field |
| `Voting.VoteOnReport` | contracts/src/voting/mod.rs:17-29 | voting always returns Ok whatever the report's status and whoever votes, ignores `report_id`, and leaves the account equal to `AfterVote` of its previous value |
| `Voting.OppositeVotesCancel` | contracts/src/voting/mod.rs:21-22 | an Upvote followed by a Downvote (or the reverse) restores the report exactly |
| `Escalation.Escalated` | contracts/src/escalation/mod.rs:37-61 | guards in the order id, status, reputation. ReportNotFound iff the id differs. InvalidStatusTransition iff the id matches and the status is not Submitted or UnderReview. Unauthorized iff the first two pass and the reputation check fails. Ok iff all pass. Any error leaves the report unchanged. On Ok the status is UnderReview and the escalation is the caller's details (reason, description, now, caller). Only status and escalation ever change |
| `Escalation.EscalateReport` | contracts/src/escalation/mod.rs:32-71 | the handler's outcome and new account value are exactly those of `Escalated` on the old value |
| `Escalation.PlaceholderAdmitsAll` | contracts/src/escalation/mod.rs:74-77 | with the placeholder reputation check, Unauthorized is never returned, and escalation succeeds iff the id matches and the status is Submitted or UnderReview |
| `Escalation.ReEscalationKeepsLatest` | contracts/src/escalation/mod.rs:41-61 | after a successful escalation, a second one by a reputable caller also succeeds. The report stays UnderReview, only the latest details are kept, and nothing else changes |
| `Lifecycle.RunKeepsRecord` | contracts/src/escalation/mod.rs:60-61 | no sequence of votes and escalations changes the id, submitter, text fields or timestamp of a report |
| `Lifecycle.RunTally` | contracts/src/voting/mod.rs:20-23 | after any sequence, votes == initial + number of Upvotes - number of Downvotes, whatever ids the votes name |
| `Lifecycle.RunStatus` | contracts/src/escalation/mod.rs:41-60 | status either stays put or goes from Submitted to UnderReview. A report in Approved, Resolved or Rejected keeps its status and its escalation forever |
| `Lifecycle.RunEscalationOrigin` | contracts/src/escalation/mod.rs:52-61 | if any sequence of votes and escalations changes a report's escalation, the report ends UnderReview carrying the details (reason, description, time, caller) of one of the escalate instructions in that sequence |
| `Lifecycle.RunConsistent` | contracts/src/escalation/mod.rs:41-61 | if a report is Submitted with no escalation, or UnderReview with one, every report reachable from it is too |
| `Lifecycle.SubmittedReportsStayConsistent` | contracts/src/submission/mod.rs:22-34 | every report reachable from a fresh submission is Submitted without escalation or UnderReview with escalation details |
| `Program.ProgramState.Allocate` | contracts/src/lib.rs:91-97 | a newly allocated state account holds the zero key and zero bump and counters |
| `Program.Initialize` | contracts/src/lib.rs:22-29 | initialize always returns Ok. It sets the authority to the signer's key, stores the given bump, and sets report_count and total_rewards_distributed to 0 |
| `Program.SubmitReport` | contracts/src/lib.rs:31-39 | allocation followed by submission yields a fresh report (signer, text as given, now, 0 votes, Submitted, no escalation) and Ok. The category is accepted and dropped |
| `Program.VoteOnReport` | contracts/src/lib.rs:41-47 | forwards report id and vote type unchanged to the vote handler, with the same result and effect |
| `Program.EscalateReport` | contracts/src/lib.rs:65-71 | forwards to the escalation handler with the placeholder reputation check, so it never returns Unauthorized |

## Left out

- `distribute_rewards` (contracts/src/rewards/mod.rs) only logs a message. It changes no state, and the token transfer it mentions is an external call that is not written.
- `update_reputation` (contracts/src/reputation/mod.rs) only logs. No score is stored, clamped or updated.
- `update_report_status` (contracts/src/lib.rs:73-79) forwards to `submission::update_report_status`, which does not exist in the submission file. It has no body to model.
- Entry-point signature mismatches in contracts/src/lib.rs. `submit_report` passes a `category` the handler does not accept. `escalate_report` passes `reason: String` where the handler takes an `EscalationReason` and a description. `distribute_rewards` passes an `amount` the handler does not take. The model uses the handler signatures. `Program.SubmitReport` accepts the category and drops it.
- `Voting.VoteOnReport`: `votes` is an unbounded integer. The `i64` overflow of `+= 1` / `-= 1` at the ends of the 64-bit range is not modelled.
- `Clock::get()` is the parameter `now`. The error it can return (when the clock sysvar is unavailable) is not modelled.
- Events (`emit!`) and log messages (`msg!`) are left out. No state depends on them.
- Anchor account plumbing is left out: `#[derive(Accounts)]` constraints, PDA seeds and bumps, account space sizing, payer and rent. The account's address is the abstract `id`.
- The report counter in `ProgramState` is never incremented by submission in the code, so the model does not increment it either.

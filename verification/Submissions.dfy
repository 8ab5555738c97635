/** What is submitted to the retry engines, and the callbacks they schedule. */
module Submissions {
  import opened Wrappers

  datatype Reason = RetryLimitExceeded | InvalidWorkflowState | InvalidPayment | StaleEvent

  datatype WorkflowState = Received | Validated | Processing | Completed | Failed

  /** One piece of scripted work: its first attempts fail with `failures`, or it is permanently unprocessable. */
  datatype Submission = Submission(
    id: string,
    requestId: string,
    failures: seq<string>,
    permanent: Option<Reason>,
    state: WorkflowState,
    diagnostic: Option<string>)

  /** `attempt` is the attempt whose failure scheduled the retry. */
  datatype Callback = Submit(submission: Submission) | Retry(payment: nat, attempt: nat)

  function ReasonText(r: Reason): string {
    match r
    case RetryLimitExceeded => "Retry limit exceeded"
    case InvalidWorkflowState => "Invalid workflow state"
    case InvalidPayment => "Invalid payment"
    case StaleEvent => "Stale event"
  }
}

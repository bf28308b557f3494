/** Execution and instance status strings, and the two classifications the
    lifecycle controller uses to decide whether a stage is over
    (`is_execution_finished`) and whether it ended badly (`is_execution_wrong`). */
module Statuses {
  const Terminated: string := "terminated"
  const Failed: string := "failed"
  const Cancelled: string := "cancelled"
  const Pending: string := "pending"
  const Started: string := "started"
  const Cancelling: string := "cancelling"
  const ForceCancelling: string := "force_cancelling"
  const Prepared: string := "prepared"

  /** The orchestrator client's `Execution.END_STATES`. */
  const EndStates: set<string> := {Terminated, Failed, Cancelled}

  /** An end state, or the instance sentinel `prepared` ("nothing running"). */
  predicate IsExecutionFinished(status: string): (r: bool)
    ensures r ==> status != Pending && status != Started
    ensures r ==> status != Cancelling && status != ForceCancelling
    ensures status == Prepared ==> r
  {
    status in EndStates || status == Prepared
  }

  /** Finished, but neither the successful `terminated` nor the sentinel `prepared`. */
  predicate IsExecutionWrong(status: string): (r: bool)
    ensures r <==> status == Failed || status == Cancelled
  {
    IsExecutionFinished(status) && status != Terminated && status != Prepared
  }

  /** The test `run_workflows` applies before starting the next stage. */
  predicate Succeeded(status: string): (r: bool)
    ensures r <==> status == Terminated || status == Prepared
  {
    IsExecutionFinished(status) && !IsExecutionWrong(status)
  }

  /** Wrong holds exactly for finished statuses other than `terminated` and
      `prepared`; `prepared` is finished and never wrong. */
  lemma WrongIsFinishedExceptSuccess(status: string)
    ensures IsExecutionWrong(status) <==>
            IsExecutionFinished(status) && status != Terminated && status != Prepared
    ensures IsExecutionFinished(Prepared) && !IsExecutionWrong(Prepared)
    ensures IsExecutionFinished(Terminated) && !IsExecutionWrong(Terminated)
  {
  }
}

/** The per-stage poll loop of `AppInstance.run_workflow`: it fetches events
    and the execution status until the status is finished, or until a fetch
    fails with the retry budget spent. The loop's variables are a `Poll`
    value; one iteration is `Step`; the orchestrator's answers are a finite
    script of `Fetch` values, one per iteration. */
module Polling {
  import opened Statuses
  import opened Events

  /** What one call of `get_execution_events(offset)` yields: a page of
      events, the `last` value (the orchestrator's total event count) and the
      execution status; or an error. */
  datatype Fetch = FetchOk(events: seq<Event>, last: int, status: string) | FetchErr(message: string)

  /** `WorkflowExecution.get_execution_events`: the wrapper returns the
      fetched page with error `None` in every case. */
  function GetExecutionEvents(items: seq<Event>, total: int, status: string): (r: Fetch)
    ensures r.FetchOk? && r.events == items && r.last == total && r.status == status
  {
    FetchOk(items, total, status)
  }

  /** The loop variables `retries`, `offset`, `status` and `finished`;
      `lastOk` says whether `error` is `None`. */
  datatype Poll = Poll(retries: int, offset: int, status: string, finished: bool, lastOk: bool)

  /** Before the first iteration: five retries, offset 0, `pending`, and no
      error yet (the execution was just created without one). */
  const Initial: Poll := Poll(5, 0, Pending, false, true)

  /** The loop guard `not finished and (retries > 0 or error is None)`. */
  predicate Continues(p: Poll) {
    !p.finished && (p.retries > 0 || p.lastOk)
  }

  /** One iteration: a successful fetch sets `retries` to 0 (it does not
      restore the budget), moves `offset` to the reported `last` and takes the
      new status; a failed fetch only spends one retry. */
  function Step(p: Poll, f: Fetch): Poll {
    match f
    case FetchOk(_, last, status) => Poll(0, last, status, IsExecutionFinished(status), true)
    case FetchErr(_) => p.(retries := p.retries - 1, lastOk := false)
  }

  /** The loop ends within the script `fs`. */
  predicate Stops(p: Poll, fs: seq<Fetch>)
    decreases |fs|
  {
    !Continues(p) || (fs != [] && Stops(Step(p, fs[0]), fs[1..]))
  }

  /** The loop variables when the loop ends. */
  function Final(p: Poll, fs: seq<Fetch>): (q: Poll)
    requires Stops(p, fs)
    ensures !Continues(q)
    decreases |fs|
  {
    if !Continues(p) then p else Final(Step(p, fs[0]), fs[1..])
  }

  /** How many fetches the loop makes. */
  function FetchCount(p: Poll, fs: seq<Fetch>): (n: nat)
    requires Stops(p, fs)
    ensures n <= |fs|
    decreases |fs|
  {
    if !Continues(p) then 0 else 1 + FetchCount(Step(p, fs[0]), fs[1..])
  }

  function EventsOf(f: Fetch): seq<Event> {
    if f.FetchOk? then f.events else []
  }

  /** The events handed to `append_logs`, batch after batch. */
  function Consumed(p: Poll, fs: seq<Fetch>): seq<Event>
    requires Stops(p, fs)
    decreases |fs|
  {
    if !Continues(p) then [] else EventsOf(fs[0]) + Consumed(Step(p, fs[0]), fs[1..])
  }

  predicate AllFailed(fs: seq<Fetch>) {
    forall i :: 0 <= i < |fs| ==> fs[i].FetchErr?
  }

  predicate AllSucceeded(fs: seq<Fetch>) {
    forall i :: 0 <= i < |fs| ==> fs[i].FetchOk?
  }

  /** `offset` and `status` change only on a successful fetch, and then
      `offset` becomes the reported `last`; after a success the retry
      counter is 0, so the next failed fetch ends the loop; a finished status
      ends it at once. */
  lemma StepEffects(p: Poll, f: Fetch)
    ensures f.FetchErr? ==> Step(p, f).offset == p.offset && Step(p, f).status == p.status
    ensures f.FetchErr? ==> Step(p, f).retries == p.retries - 1 && !Step(p, f).lastOk && Step(p, f).finished == p.finished
    ensures f.FetchOk? ==> Step(p, f).lastOk && (Step(p, f).finished <==> IsExecutionFinished(f.status))
    ensures f.FetchOk? ==> Step(p, f).offset == f.last && Step(p, f).status == f.status
    ensures f.FetchOk? ==> Step(p, f).retries == 0
    ensures f.FetchOk? && IsExecutionFinished(f.status) ==> !Continues(Step(p, f))
  {
  }

  /** A failed fetch right after a successful one ends the loop. */
  lemma FailureAfterSuccessStops(p: Poll, ok: Fetch, err: Fetch)
    requires ok.FetchOk? && err.FetchErr?
    ensures !Continues(Step(Step(p, ok), err))
    ensures Continues(p) && !IsExecutionFinished(ok.status) ==>
              Stops(p, [ok, err]) && FetchCount(p, [ok, err]) == 2 && Final(p, [ok, err]).status == ok.status
  {
    if Continues(p) && !IsExecutionFinished(ok.status) {
      assert [ok, err][1..] == [err];
      assert [err][1..] == [];
      var q := Step(p, ok);
      assert Final(p, [ok, err]) == Final(q, [err]);
      assert Final(q, [err]) == Step(q, err);
    }
  }

  /** From a failed state with `r` retries left, a run of failures ends the
      loop after exactly `r` more fetches, changing nothing but the budget. */
  lemma {:induction false} FailuresDrainRetries(p: Poll, fs: seq<Fetch>)
    requires !p.lastOk && !p.finished && p.retries >= 0
    requires AllFailed(fs) && |fs| >= p.retries
    ensures Stops(p, fs)
    ensures FetchCount(p, fs) == p.retries
    ensures Final(p, fs) == p.(retries := 0)
    ensures Consumed(p, fs) == []
    decreases p.retries
  {
    if p.retries > 0 {
      assert fs[0].FetchErr?;
      assert AllFailed(fs[1..]) by {
        forall i | 0 <= i < |fs[1..]| ensures fs[1..][i].FetchErr? { assert fs[1..][i] == fs[i + 1]; }
      }
      FailuresDrainRetries(Step(p, fs[0]), fs[1..]);
    }
  }

  /** With only failed fetches the loop makes exactly five fetches and
      ends with offset 0 and status `pending`; fewer than five failures do not
      end it. */
  lemma {:induction false} OnlyFailuresStopAfterFive(fs: seq<Fetch>)
    requires AllFailed(fs)
    ensures |fs| >= 5 ==> Stops(Initial, fs) && FetchCount(Initial, fs) == 5
                          && Final(Initial, fs).status == Pending && Final(Initial, fs).offset == 0
                          && !Final(Initial, fs).finished
    ensures |fs| < 5 ==> !Stops(Initial, fs)
  {
    if |fs| >= 5 {
      var q := Step(Initial, fs[0]);
      assert AllFailed(fs[1..]) by {
        forall i | 0 <= i < |fs[1..]| ensures fs[1..][i].FetchErr? { assert fs[1..][i] == fs[i + 1]; }
      }
      FailuresDrainRetries(q, fs[1..]);
    } else {
      FewFailuresContinue(Initial, fs);
    }
  }

  lemma {:induction false} FewFailuresContinue(p: Poll, fs: seq<Fetch>)
    requires !p.finished && AllFailed(fs) && |fs| < p.retries
    ensures !Stops(p, fs)
    decreases |fs|
  {
    if fs != [] {
      assert AllFailed(fs[1..]) by {
        forall i | 0 <= i < |fs[1..]| ensures fs[1..][i].FetchErr? { assert fs[1..][i] == fs[i + 1]; }
      }
      FewFailuresContinue(Step(p, fs[0]), fs[1..]);
    }
  }

  /** When every fetch succeeds the loop ends exactly when some fetched
      status is finished, and it then ends finished. */
  lemma {:induction false} SuccessesStopOnlyWhenFinished(p: Poll, fs: seq<Fetch>)
    requires Continues(p) && AllSucceeded(fs)
    ensures Stops(p, fs) <==> exists i :: 0 <= i < |fs| && IsExecutionFinished(fs[i].status)
    ensures Stops(p, fs) ==> Final(p, fs).finished
    decreases |fs|
  {
    if fs != [] {
      var q := Step(p, fs[0]);
      assert AllSucceeded(fs[1..]) by {
        forall i | 0 <= i < |fs[1..]| ensures fs[1..][i].FetchOk? { assert fs[1..][i] == fs[i + 1]; }
      }
      if !IsExecutionFinished(fs[0].status) {
        SuccessesStopOnlyWhenFinished(q, fs[1..]);
        if Stops(p, fs) {
          var i :| 0 <= i < |fs[1..]| && IsExecutionFinished(fs[1..][i].status);
          assert fs[i + 1] == fs[1..][i];
        }
        if exists i :: 0 <= i < |fs| && IsExecutionFinished(fs[i].status) {
          var i :| 0 <= i < |fs| && IsExecutionFinished(fs[i].status);
          assert i != 0;
          assert fs[1..][i - 1] == fs[i];
        }
      } else {
        assert IsExecutionFinished(fs[0].status);
      }
    }
  }

  /** Since `get_execution_events` never reports an error, the loop's error
      branch is never taken: fed by it, the loop can only end on a finished
      status and never by spending retries. */
  lemma EventFetchesEndOnlyFinished(pages: seq<seq<Event>>, totals: seq<int>, statuses: seq<string>)
    requires |pages| == |totals| == |statuses|
    ensures
      var fs := seq(|pages|, i requires 0 <= i < |pages| => GetExecutionEvents(pages[i], totals[i], statuses[i]));
      AllSucceeded(fs) && (Stops(Initial, fs) ==> Final(Initial, fs).finished)
  {
    var fs := seq(|pages|, i requires 0 <= i < |pages| => GetExecutionEvents(pages[i], totals[i], statuses[i]));
    SuccessesStopOnlyWhenFinished(Initial, fs);
  }
}

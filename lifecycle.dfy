/** The instance lifecycle of `AppInstance`, read off the orchestrator's
    answers: what a stage of `run_workflow` returns and logs, how many stages
    `run_workflows` runs, the remote calls it makes, and the state
    `clean_up_execution` leaves and `get_instance_events` reports. The
    methods of `Portal.Portal` that perform these steps are proved against
    the functions here. */
module Lifecycle {
  import opened Wrappers
  import opened Statuses
  import opened Events
  import opened Polling
  import opened Records
  import opened Engine

  const Install: string := "install"
  const RunJobs: string := "run_jobs"
  const Uninstall: string := "uninstall"
  const Workflows: seq<string> := [Install, RunJobs, Uninstall]

  predicate Owns(db: Db, instance: Pk, owner: UserId)
    requires instance in db.instances
  {
    db.instances[instance].owner == owner
  }

  /** `AppInstance.is_finished` / `is_wrong`, the instance-side twins of the
      status classification. */
  predicate IsFinished(i: AppInstance): (r: bool)
    ensures r <==> i.status == Terminated || i.status == Failed || i.status == Cancelled || i.status == Prepared
  {
    i.status in EndStates || i.status == Prepared
  }

  predicate IsWrong(i: AppInstance): (r: bool)
    ensures r <==> i.status == Failed || i.status == Cancelled
  {
    IsFinished(i) && i.status != Terminated && i.status != Prepared
  }

  lemma InstanceClassificationAgrees(i: AppInstance)
    ensures IsFinished(i) == IsExecutionFinished(i.status)
    ensures IsWrong(i) == IsExecutionWrong(i.status)
  {
  }

  /** What `WorkflowExecution.create` hands back as its execution: none, the
      remote execution only (its row could not be stored), or the stored row. */
  datatype Execution = NoExecution | RemoteOnly(executionId: string) | Stored(pk: Pk, executionId: string)

  const NoInstance: string := "Can't create execution because instance doesn't exist"
  const NotInstanceOwner: string := "Can't create execution because instance doesn't belong to user"

  // ---------------------------------------------------------------------
  // One stage: run_workflow

  /** The orchestrator's side of one stage: the answer to the start call, a
      failure storing the execution row (if any), the answers to the poll
      loop's fetches, and the time `datetime.now()` reads during the stage. */
  datatype StageScript = StageScript(start: StartOutcome, recordError: Option<string>, fetches: seq<Fetch>, now: string)

  /** The stage gets past both early aborts and polls. */
  predicate Polls(owned: bool, s: StageScript) {
    owned && s.start.ExecutionStarted? && s.recordError.None?
  }

  /** A polling stage returns only when its loop ends, and its events must
      be ones `append_logs` can render without raising. */
  predicate StageReady(owned: bool, s: StageScript) {
    Polls(owned, s) ==> Stops(Initial, s.fetches) && Loggable(Consumed(Initial, s.fetches))
  }

  /** The error `WorkflowExecution.create` reports to a stage: the refusal of
      a foreign caller, the start call's error, or the failure storing the
      row; `None` exactly when the stage polls. */
  function CreationError(owned: bool, s: StageScript): (r: Option<string>)
    ensures r.None? <==> Polls(owned, s)
    ensures !owned ==> r == Some(NotInstanceOwner)
  {
    if !owned then Some(NotInstanceOwner)
    else if s.start.StartFailed? then Some(s.start.message)
    else s.recordError
  }

  /** `str.upper` on ASCII letters. */
  function UpperChar(c: char): char {
    if 'a' <= c <= 'z' then (c as int - 32) as char else c
  }

  function Upper(s: string): (r: string)
    ensures |r| == |s| && forall i :: 0 <= i < |s| ==> r[i] == UpperChar(s[i])
  {
    seq(|s|, i requires 0 <= i < |s| => UpperChar(s[i]))
  }

  function Separator(workflow: string): string {
    "-------" + Upper(workflow) + "-------"
  }

  /** The line logged by an early abort: with the creation error, or the
      "no execution" message. */
  function AbortMessage(workflow: string, error: Option<string>): string {
    if error.Some? then "Couldn't execute the workflow '" + workflow + "': " + error.value
    else "Couldn't create the execution for workflow '" + workflow + "'"
  }

  /** What a stage returns, read off its script alone: the status its poll
      loop ends with, or `cancelled` after an early abort. */
  function StageResult(owned: bool, s: StageScript): (r: string)
    requires StageReady(owned, s)
    ensures !Polls(owned, s) ==> r == Cancelled
    ensures Polls(owned, s) ==> r == Final(Initial, s.fetches).status
  {
    if Polls(owned, s) then Final(Initial, s.fetches).status else Cancelled
  }

  /** The lines a stage appends to the log, starting at id `firstId`: after an
      early abort the one abort line; otherwise the separator (its id comes
      after the stored execution's) and then one line per timestamped event
      the poll loop fetched. */
  function StageLines(pk: Pk, workflow: string, owned: bool, s: StageScript, firstId: Pk): (r: seq<InstanceLog>)
    requires StageReady(owned, s)
    ensures |r| >= 1 && forall i :: 0 <= i < |r| ==> r[i].instance == pk
    ensures !Polls(owned, s) ==> r == [InstanceLog(firstId, pk, s.now, AbortMessage(workflow, CreationError(owned, s)))]
    ensures Polls(owned, s) ==>
              |r| == 1 + |Logged(Consumed(Initial, s.fetches))| &&
              r[0] == InstanceLog(firstId + 1, pk, s.now, Separator(workflow))
  {
    if !Polls(owned, s) then [InstanceLog(firstId, pk, s.now, AbortMessage(workflow, CreationError(owned, s)))]
    else [InstanceLog(firstId + 1, pk, s.now, Separator(workflow))] + LogRows(pk, firstId + 2, Logged(Consumed(Initial, s.fetches)))
  }

  /** After the separator, a polling stage logs exactly the rendered
      timestamped events of every fetched batch, in order. */
  lemma StageLinesRender(pk: Pk, workflow: string, owned: bool, s: StageScript, firstId: Pk)
    requires StageReady(owned, s) && Polls(owned, s)
    ensures var r := StageLines(pk, workflow, owned, s, firstId);
            var kept := Timestamped(Consumed(Initial, s.fetches));
            |r| == 1 + |kept| &&
            forall i :: 0 <= i < |kept| ==>
              Renderable(kept[i]) && r[i + 1].generated == kept[i].reportedTimestamp.value &&
              r[i + 1].message == Render(kept[i])
  {
    var events := Consumed(Initial, s.fetches);
    LoggedIsRenderOfTimestamped(events);
    var r := StageLines(pk, workflow, owned, s, firstId);
    assert r[1..] == LogRows(pk, firstId + 2, Logged(events));
  }

  /** The tables one stage leaves. After an early abort the instance is
      `cancelled` and the abort line is logged; otherwise the execution row
      is stored, the separator is logged and every fetched batch is
      appended. */
  function StageDb(db: Db, pk: Pk, workflow: string, owner: UserId, s: StageScript): (r: Db)
    requires pk in db.instances && StageReady(Owns(db, pk, owner), s)
    ensures pk in r.instances && r.instances[pk] == db.instances[pk].(status := r.instances[pk].status)
  {
    var owned := Owns(db, pk, owner);
    if Polls(owned, s) then
      var stored := AddExecution(db, WorkflowExecution(s.start.executionId, pk, workflow, s.now, owner));
      AppendLogsEffect(AddLog(stored, pk, s.now, Separator(workflow)), pk, Consumed(Initial, s.fetches))
    else
      AddLog(SetStatus(db, pk, Cancelled), pk, s.now, AbortMessage(workflow, CreationError(owned, s)))
  }

  /** A stage keeps the tables consistent. */
  lemma StageDbValid(db: Db, pk: Pk, workflow: string, owner: UserId, s: StageScript)
    requires Valid(db) && pk in db.instances && StageReady(Owns(db, pk, owner), s)
    ensures Valid(StageDb(db, pk, workflow, owner, s))
  {
    var owned := Owns(db, pk, owner);
    if Polls(owned, s) {
      var e := WorkflowExecution(s.start.executionId, pk, workflow, s.now, owner);
      AddExecutionValid(db, e);
      AddLogValid(AddExecution(db, e), pk, s.now, Separator(workflow));
      AppendLogsValid(AddLog(AddExecution(db, e), pk, s.now, Separator(workflow)), pk, Consumed(Initial, s.fetches));
    } else {
      SetStatusValid(db, pk, Cancelled);
      AddLogValid(SetStatus(db, pk, Cancelled), pk, s.now, AbortMessage(workflow, CreationError(owned, s)));
    }
  }

  /** The orchestrator after one stage: the owner's stage makes one start
      call, with `force=False`; a foreign caller's makes none. */
  function StageEngine(e: Engine, name: string, owned: bool, workflow: string): (r: Engine)
    ensures r.blueprints == e.blueprints && r.deployments == e.deployments
    ensures |e.calls| <= |r.calls| && r.calls[..|e.calls|] == e.calls
    ensures owned <==> |r.calls| == |e.calls| + 1
    ensures !owned ==> r == e
    ensures owned ==> r.calls[|e.calls|] == StartExecution(name, workflow, false)
  {
    if owned then e.(calls := e.calls + [StartExecution(name, workflow, false)]) else e
  }

  /** One stage changes no instance row but its own, and that one only in
      its status: to `cancelled` on an early abort, not at all otherwise. */
  lemma StageDbInstances(db: Db, pk: Pk, workflow: string, owner: UserId, s: StageScript)
    requires pk in db.instances && StageReady(Owns(db, pk, owner), s)
    ensures var r := StageDb(db, pk, workflow, owner, s);
            && r.instances.Keys == db.instances.Keys && Profile(r.instances) == Profile(db.instances)
            && r.instances[pk].status == (if Polls(Owns(db, pk, owner), s) then db.instances[pk].status else Cancelled)
  {
  }

  /** One stage appends exactly its lines to the log, stores one execution
      row when it polls, and touches no other table. */
  lemma StageDbLogs(db: Db, pk: Pk, workflow: string, owner: UserId, s: StageScript)
    requires pk in db.instances && StageReady(Owns(db, pk, owner), s)
    ensures var owned := Owns(db, pk, owner);
            var r := StageDb(db, pk, workflow, owner, s);
            && r.logs == db.logs + StageLines(pk, workflow, owned, s, db.nextId)
            && r.executions == (if Polls(owned, s)
                                then db.executions[db.nextId := WorkflowExecution(s.start.executionId, pk, workflow, s.now, owner)]
                                else db.executions)
            && r == db.(instances := r.instances, logs := r.logs, executions := r.executions, nextId := r.nextId)
  {
    var owned := Owns(db, pk, owner);
    if Polls(owned, s) {
      var sep := InstanceLog(db.nextId + 1, pk, s.now, Separator(workflow));
      var rows := LogRows(pk, db.nextId + 2, Logged(Consumed(Initial, s.fetches)));
      assert (db.logs + [sep]) + rows == db.logs + ([sep] + rows);
    }
  }

  // ---------------------------------------------------------------------
  // The pipeline: run_workflows

  /** The scripts of the three stages, and the answer to the final destroy. */
  datatype PipelineScript = PipelineScript(stages: seq<StageScript>, destroy: Reply)

  predicate PipelineReady(owned: bool, p: PipelineScript) {
    |p.stages| == 3 && forall i :: 0 <= i < 3 ==> StageReady(owned, p.stages[i])
  }

  /** How many stages `run_workflows` runs: the next one only after a status
      that is finished and not wrong. */
  function Ran(owned: bool, p: PipelineScript): (n: nat)
    requires PipelineReady(owned, p)
    ensures 1 <= n <= 3
  {
    if !Succeeded(StageResult(owned, p.stages[0])) then 1
    else if !Succeeded(StageResult(owned, p.stages[1])) then 2
    else 3
  }

  /** The status `run_workflows` stores and returns: the last stage's. */
  function PipelineStatus(owned: bool, p: PipelineScript): (r: string)
    requires PipelineReady(owned, p)
    ensures Ran(owned, p) < 3 ==> !Succeeded(r)
    ensures Ran(owned, p) == 3 ==> r == StageResult(owned, p.stages[2])
  {
    StageResult(owned, p.stages[Ran(owned, p) - 1])
  }

  /** The start calls of the stages that ran. */
  function StartCalls(name: string, owned: bool, workflows: seq<string>): (r: seq<RemoteCall>)
    ensures |r| == if owned then |workflows| else 0
    ensures forall i :: 0 <= i < |r| ==> r[i] == StartExecution(name, workflows[i], false)
  {
    if owned then seq(|workflows|, i requires 0 <= i < |workflows| => StartExecution(name, workflows[i], false))
    else []
  }

  lemma StartCallsNext(name: string, owned: bool, ran: nat)
    requires ran < 3
    ensures StartCalls(name, owned, Workflows[..ran + 1]) ==
              StartCalls(name, owned, Workflows[..ran]) + (if owned then [StartExecution(name, Workflows[ran], false)] else [])
  {
    assert Workflows[..ran + 1] == Workflows[..ran] + [Workflows[ran]];
  }

  /** Every remote call `run_workflows` makes, in order: one start per stage
      that ran (none for a foreign caller), then the forced destroy. */
  function PipelineCalls(name: string, owned: bool, p: PipelineScript): (r: seq<RemoteCall>)
    requires PipelineReady(owned, p)
    ensures |r| == (if owned then Ran(owned, p) else 0) + 1
    ensures r[|r| - 1] == DeleteDeployment(name, true)
    ensures forall i :: 0 <= i < |r| - 1 ==> r[i] == StartExecution(name, Workflows[i], false)
  {
    StartCalls(name, owned, Workflows[..Ran(owned, p)]) + [DeleteDeployment(name, true)]
  }

  /** The tables after the stages that ran, each starting from the tables
      the one before left. */
  function StagesDb(db: Db, pk: Pk, owner: UserId, p: PipelineScript): (r: Db)
    requires pk in db.instances && PipelineReady(Owns(db, pk, owner), p)
    ensures pk in r.instances && r.instances[pk] == db.instances[pk].(status := r.instances[pk].status)
  {
    var owned := Owns(db, pk, owner);
    var installed := StageDb(db, pk, Install, owner, p.stages[0]);
    if Ran(owned, p) == 1 then installed
    else
      var ranJobs := StageDb(installed, pk, RunJobs, owner, p.stages[1]);
      if Ran(owned, p) == 2 then ranJobs
      else StageDb(ranJobs, pk, Uninstall, owner, p.stages[2])
  }

  /** The tables `run_workflows` leaves: `started` is stored first, the
      stages run, and the pipeline's status is stored last. */
  function PipelineDb(db: Db, pk: Pk, owner: UserId, p: PipelineScript): (r: Db)
    requires pk in db.instances && PipelineReady(Owns(db, pk, owner), p)
  {
    var started := SetStatus(db, pk, Started);
    SetStatus(StagesDb(started, pk, owner, p), pk, PipelineStatus(Owns(db, pk, owner), p))
  }

  /** The orchestrator after the stages that ran. */
  function StagesEngine(e: Engine, name: string, owned: bool, p: PipelineScript): Engine
    requires PipelineReady(owned, p)
  {
    var installed := StageEngine(e, name, owned, Install);
    if Ran(owned, p) == 1 then installed
    else
      var ranJobs := StageEngine(installed, name, owned, RunJobs);
      if Ran(owned, p) == 2 then ranJobs
      else StageEngine(ranJobs, name, owned, Uninstall)
  }

  /** The orchestrator after `run_workflows`: the stages' start calls, then
      the forced destroy of the instance's deployment. */
  function PipelineEngine(e: Engine, name: string, owned: bool, p: PipelineScript): Engine
    requires PipelineReady(owned, p)
  {
    DestroyDeployment(StagesEngine(e, name, owned, p), name, true, p.destroy).0
  }

  // ---------------------------------------------------------------------
  // Properties of the pipeline

  lemma {:induction false} NoDestroysAmongStarts(calls: seq<RemoteCall>, name: string)
    requires forall i :: 0 <= i < |calls| ==> calls[i].StartExecution?
    ensures CountDestroys(calls, name) == 0
  {
    if calls != [] {
      NoDestroysAmongStarts(calls[1..], name);
    }
  }

  /** Every run makes exactly one forced destroy of the instance's
      deployment, and makes it last. */
  lemma DestroyedOnceAtTheEnd(name: string, owned: bool, p: PipelineScript)
    requires PipelineReady(owned, p)
    ensures var made := PipelineCalls(name, owned, p);
            CountDestroys(made, name) == 1 && made[|made| - 1] == DeleteDeployment(name, true)
  {
    var starts := StartCalls(name, owned, Workflows[..Ran(owned, p)]);
    NoDestroysAmongStarts(starts, name);
    CountDestroysAppend(starts, [DeleteDeployment(name, true)], name);
    assert [DeleteDeployment(name, true)][1..] == [];
  }

  /** run_jobs is started exactly when the owner runs the pipeline and the
      install status is finished and not wrong; uninstall exactly when, in
      addition, the run_jobs status is. */
  lemma StagesAreGated(name: string, owned: bool, p: PipelineScript)
    requires PipelineReady(owned, p)
    ensures var made := PipelineCalls(name, owned, p);
            && (StartExecution(name, Install, false) in made <==> owned)
            && (StartExecution(name, RunJobs, false) in made <==>
                  owned && Succeeded(StageResult(owned, p.stages[0])))
            && (StartExecution(name, Uninstall, false) in made <==>
                  owned && Succeeded(StageResult(owned, p.stages[0])) && Succeeded(StageResult(owned, p.stages[1])))
  {
    var n := Ran(owned, p);
    var starts := StartCalls(name, owned, Workflows[..n]);
    var made := PipelineCalls(name, owned, p);
    forall wf | wf in Workflows
      ensures StartExecution(name, wf, false) in made <==> owned && wf in Workflows[..n]
    {
      if StartExecution(name, wf, false) in made {
        var k :| 0 <= k < |made| && made[k] == StartExecution(name, wf, false);
        assert k < |starts| && Workflows[..n][k] == wf;
      }
      if owned && wf in Workflows[..n] {
        var k :| 0 <= k < n && Workflows[..n][k] == wf;
        assert made[k] == starts[k];
      }
    }
    assert Workflows[..1] == [Install] && Workflows[..2] == [Install, RunJobs];
  }

  lemma StagesDbValid(db: Db, pk: Pk, owner: UserId, p: PipelineScript)
    requires Valid(db) && pk in db.instances && PipelineReady(Owns(db, pk, owner), p)
    ensures Valid(StagesDb(db, pk, owner, p))
  {
    var owned := Owns(db, pk, owner);
    var installed := StageDb(db, pk, Install, owner, p.stages[0]);
    StageDbValid(db, pk, Install, owner, p.stages[0]);
    if Ran(owned, p) == 1 {
      assert StagesDb(db, pk, owner, p) == installed;
    } else {
      var ranJobs := StageDb(installed, pk, RunJobs, owner, p.stages[1]);
      StageDbValid(installed, pk, RunJobs, owner, p.stages[1]);
      if Ran(owned, p) == 2 {
        assert StagesDb(db, pk, owner, p) == ranJobs;
      } else {
        StageDbValid(ranJobs, pk, Uninstall, owner, p.stages[2]);
        assert StagesDb(db, pk, owner, p) == StageDb(ranJobs, pk, Uninstall, owner, p.stages[2]);
      }
    }
  }

  /** `run_workflows` keeps the tables consistent. */
  lemma PipelineDbValid(db: Db, pk: Pk, owner: UserId, p: PipelineScript)
    requires Valid(db) && pk in db.instances && PipelineReady(Owns(db, pk, owner), p)
    ensures Valid(PipelineDb(db, pk, owner, p))
  {
    var started := SetStatus(db, pk, Started);
    SetStatusValid(db, pk, Started);
    StagesDbValid(started, pk, owner, p);
    SetStatusValid(StagesDb(started, pk, owner, p), pk, PipelineStatus(Owns(db, pk, owner), p));
  }

  lemma StagesDbInstances(db: Db, pk: Pk, owner: UserId, p: PipelineScript)
    requires pk in db.instances && PipelineReady(Owns(db, pk, owner), p)
    ensures var r := StagesDb(db, pk, owner, p);
            r.instances.Keys == db.instances.Keys && Profile(r.instances) == Profile(db.instances)
  {
    var owned := Owns(db, pk, owner);
    var installed := StageDb(db, pk, Install, owner, p.stages[0]);
    StageDbInstances(db, pk, Install, owner, p.stages[0]);
    if Ran(owned, p) >= 2 {
      StageDbInstances(installed, pk, RunJobs, owner, p.stages[1]);
      if Ran(owned, p) == 3 {
        StageDbInstances(StageDb(installed, pk, RunJobs, owner, p.stages[1]), pk, Uninstall, owner, p.stages[2]);
      }
    }
  }

  /** `run_workflows` changes no instance row but its own, and that one only
      in its status, which ends as the pipeline's status. */
  lemma PipelineDbInstances(db: Db, pk: Pk, owner: UserId, p: PipelineScript)
    requires pk in db.instances && PipelineReady(Owns(db, pk, owner), p)
    ensures var r := PipelineDb(db, pk, owner, p);
            && r.instances.Keys == db.instances.Keys && Profile(r.instances) == Profile(db.instances)
            && r.instances[pk] == db.instances[pk].(status := PipelineStatus(Owns(db, pk, owner), p))
  {
    StagesDbInstances(SetStatus(db, pk, Started), pk, owner, p);
  }

  /** The log of a `run_workflows` run: the old lines, then the lines of each
      stage that ran, in stage order, each stage numbering its lines from the
      next id the stage before left. */
  lemma PipelineDbLogs(db: Db, pk: Pk, owner: UserId, p: PipelineScript)
    requires pk in db.instances && PipelineReady(Owns(db, pk, owner), p)
    ensures var owned := Owns(db, pk, owner);
            var started := SetStatus(db, pk, Started);
            var installed := StageDb(started, pk, Install, owner, p.stages[0]);
            var ranJobs := StageDb(installed, pk, RunJobs, owner, p.stages[1]);
            PipelineDb(db, pk, owner, p).logs ==
              db.logs + StageLines(pk, Install, owned, p.stages[0], db.nextId)
              + (if Ran(owned, p) >= 2 then StageLines(pk, RunJobs, owned, p.stages[1], installed.nextId) else [])
              + (if Ran(owned, p) == 3 then StageLines(pk, Uninstall, owned, p.stages[2], ranJobs.nextId) else [])
  {
    var started := SetStatus(db, pk, Started);
    var installed := StageDb(started, pk, Install, owner, p.stages[0]);
    StageDbLogs(started, pk, Install, owner, p.stages[0]);
    var ranJobs := StageDb(installed, pk, RunJobs, owner, p.stages[1]);
    StageDbLogs(installed, pk, RunJobs, owner, p.stages[1]);
    StageDbLogs(ranJobs, pk, Uninstall, owner, p.stages[2]);
  }

  /** The orchestrator sees the pipeline's calls, and the deployment is gone
      exactly when the destroy succeeded; no blueprint changes. */
  lemma PipelineEngineEffect(e: Engine, name: string, owned: bool, p: PipelineScript)
    requires PipelineReady(owned, p)
    ensures var r := PipelineEngine(e, name, owned, p);
            && r.calls == e.calls + PipelineCalls(name, owned, p)
            && r.blueprints == e.blueprints
            && r.deployments == if p.destroy.Ok? then e.deployments - {name} else e.deployments
  {
    var staged := StagesEngine(e, name, owned, p);
    assert Workflows[..1] == [Install];
    StartCallsNext(name, owned, 1);
    StartCallsNext(name, owned, 2);
    assert staged == e.(calls := e.calls + StartCalls(name, owned, Workflows[..Ran(owned, p)]));
  }

  /** A caller who does not own the instance gets a `cancelled` install, no
      further stage and no start call; only the destroy reaches the
      orchestrator. */
  lemma ForeignCallerRunsNothing(name: string, p: PipelineScript)
    requires PipelineReady(false, p)
    ensures Ran(false, p) == 1 && PipelineStatus(false, p) == Cancelled
    ensures PipelineCalls(name, false, p) == [DeleteDeployment(name, true)]
  {
  }

  /** For fetches that report an error (which `get_execution_events` never
      does, see `Polling.EventFetchesEndOnlyFinished`): when every fetch of
      the install stage fails, its loop gives up after five fetches and the
      pipeline stores and returns `pending`. */
  lemma FailedFetchesStorePending(owned: bool, p: PipelineScript)
    requires PipelineReady(owned, p)
    requires Polls(owned, p.stages[0]) && AllFailed(p.stages[0].fetches)
    ensures |p.stages[0].fetches| >= 5
    ensures Ran(owned, p) == 1 && PipelineStatus(owned, p) == Pending
  {
    OnlyFailuresStopAfterFive(p.stages[0].fetches);
  }

  // ---------------------------------------------------------------------
  // clean_up_execution and get_instance_events

  /** `clean_up_execution(owner)`: the instance becomes `prepared`, every
      log of the instance is deleted (the log listing does not check the
      owner), and so is every execution of the instance that belongs to the
      caller; nothing else changes. */
  function CleanUp(db: Db, pk: Pk, owner: UserId): (r: Db)
    requires pk in db.instances
    ensures r.instances == db.instances[pk := db.instances[pk].(status := Prepared)]
    ensures r.logs == WithoutLogsOf(db.logs, {pk})
    ensures forall e :: e in r.executions <==>
              e in db.executions && !(db.executions[e].instance == pk && db.executions[e].owner == owner)
    ensures forall e :: e in r.executions ==> r.executions[e] == db.executions[e]
    ensures r == db.(instances := r.instances, logs := r.logs, executions := r.executions)
  {
    var d := SetStatus(db, pk, Prepared);
    d.(logs := WithoutLogsOf(d.logs, {pk}), executions := OthersExecutions(d.executions, pk, owner))
  }

  /** The executions that are not the caller's executions of the instance. */
  function OthersExecutions(executions: map<Pk, WorkflowExecution>, pk: Pk, owner: UserId)
    : map<Pk, WorkflowExecution>
  {
    map e | e in executions && !(executions[e].instance == pk && executions[e].owner == owner) :: executions[e]
  }

  /** Deleting every execution the listing returns leaves the others. */
  lemma ListedExecutions(db: Db, pk: Pk, owner: UserId)
    ensures db.executions - ExecutionList(db, pk, owner).Keys == OthersExecutions(db.executions, pk, owner)
  {
  }

  /** The clean-up keeps the table invariants and leaves the instance, now
      `prepared`, with no log at all and none of the caller's executions. */
  lemma CleanUpValid(db: Db, pk: Pk, owner: UserId)
    requires Valid(db) && pk in db.instances
    ensures var r := CleanUp(db, pk, owner);
            Valid(r) && pk in r.instances && r.instances[pk].status == Prepared && OfInstance(r.logs, pk) == [] &&
            forall e :: e in r.executions ==> !(r.executions[e].instance == pk && r.executions[e].owner == owner)
  {
    var prepared := SetStatus(db, pk, Prepared);
    SetStatusValid(db, pk, Prepared);
    FilteredLogsKeepInvariants(prepared, {pk});
    NoLogsOfGone(prepared.logs, {pk}, pk);
    var logs := WithoutLogsOf(prepared.logs, {pk});
    var executions := OthersExecutions(prepared.executions, pk, owner);
    ShrunkValid(prepared, logs, executions);
    assert CleanUp(db, pk, owner) == prepared.(logs := logs, executions := executions);
  }

  /** One iteration of the poll loop, seen from the logs: the batch fetched
      is appended after those already appended, and what remains to append
      is what the rest of the script consumes. */
  lemma PollLogStep(db0: Db, pk: Pk, seen: seq<Event>, p: Poll, fs: seq<Fetch>, whole: seq<Event>)
    requires Continues(p) && Stops(p, fs)
    requires seen + Consumed(p, fs) == whole && Loggable(whole)
    ensures fs != [] && Stops(Step(p, fs[0]), fs[1..]) && Final(Step(p, fs[0]), fs[1..]) == Final(p, fs)
    ensures (seen + EventsOf(fs[0])) + Consumed(Step(p, fs[0]), fs[1..]) == whole
    ensures Loggable(seen) && Loggable(EventsOf(fs[0])) && Loggable(seen + EventsOf(fs[0]))
    ensures AppendLogsEffect(db0, pk, seen + EventsOf(fs[0])) ==
            AppendLogsEffect(AppendLogsEffect(db0, pk, seen), pk, EventsOf(fs[0]))
    ensures fs[0].FetchErr? ==> seen + EventsOf(fs[0]) == seen
  {
    var rest := Consumed(Step(p, fs[0]), fs[1..]);
    assert seen + (EventsOf(fs[0]) + rest) == (seen + EventsOf(fs[0])) + rest;
    LoggableAppend(seen + EventsOf(fs[0]), rest);
    LoggableAppend(seen, EventsOf(fs[0]));
    AppendLogsTwice(db0, pk, seen, EventsOf(fs[0]));
  }

  /** The row `AppInstance.create` stores for a created deployment; the
      status takes the column's default, `prepared`. */
  function NewInstance(d: Deployment, app: Pk, owner: UserId): (r: AppInstance)
    ensures r.name == d.id && r.status == Prepared && IsFinished(r) && !IsWrong(r)
    ensures r.app == app && r.owner == owner && r.description == d.description
  {
    AppInstance(d.id, app, d.description, d.inputs, d.outputs, owner, Prepared)
  }

  /** The page `get_instance_events` returns. */
  datatype EventsPage = EventsPage(logs: seq<InstanceLog>, last: int, status: string, finished: bool)

  /** `get_instance_events(pk, offset, owner)`. The source dereferences the
      instance even when the lookup found none or refused the caller, so
      only the owner's existing instance is a valid request. */
  function InstanceEvents(db: Db, pk: Pk, offset: nat, owner: UserId): (r: EventsPage)
    requires pk in db.instances && Owns(db, pk, owner)
    ensures r.logs == LogList(db, pk, owner, offset)
    ensures r.last == offset + |r.logs|
    ensures forall i :: 0 <= i < |r.logs| ==> r.logs[i].instance == pk
    ensures r.status == db.instances[pk].status
    ensures r.finished <==> IsExecutionFinished(r.status)
  {
    var logs := LogList(db, pk, owner, offset);
    EventsPage(logs, offset + |logs|, db.instances[pk].status, IsFinished(db.instances[pk]))
  }

  /** Polling the instance page from the `last` of the previous page misses
      no log line and repeats none, however many lines arrived in between. */
  lemma InstanceEventsPaging(db: Db, later: Db, pk: Pk, offset: nat, owner: UserId)
    requires pk in db.instances && pk in later.instances && Owns(db, pk, owner) && Owns(later, pk, owner)
    requires db.logs <= later.logs && offset <= |OfInstance(db.logs, pk)|
    ensures var first := InstanceEvents(db, pk, offset, owner);
            first.last >= 0 &&
            first.logs + InstanceEvents(later, pk, first.last, owner).logs == LogList(later, pk, owner, offset)
  {
    LogPagingHasNoGaps(db, later, pk, owner, offset);
  }
}

# MSOPortal experiments tool: instance lifecycle and record store

This project is a Dafny model of the experiments tool of MSOPortal (`portal/experimentstool/models.py`). The tool keeps a per-user catalogue in Django tables:
- data-catalogue keys;
- SSH tunnels;
- HPC infrastructures;
- applications (Cloudify blueprints);
- application instances (Cloudify deployments), with their log lines and workflow executions.

It drives a Cloudify orchestrator. Its core is the instance lifecycle:
- install, then run_jobs, then uninstall;
- each stage polls the orchestrator's event stream;
- each event is turned into one log line;
- an instance can be cleaned up for a new run;
- creating and removing records is paired with the matching remote step, and a compensating remote call is made when the local step fails.

The model is split into modules:

| module (file) | contents |
|---|---|
| `Statuses` (statuses.dfy) | the Cloudify execution statuses, `END_STATES`, and the finished/wrong classification |
| `Events` (events.dfy) | Cloudify events as values, the per-event log message of `append_logs`, and the `(timestamp, message)` pairs a batch produces |
| `Polling` (polling.dfy) | one iteration of the poll loop of `run_workflow`, as a step function over `(retries, offset, status, finished)`, and how a script of fetch results ends |
| `Records` (records.dfy) | the tables as maps keyed by primary key (the logs as a sequence in creation order); owner-checked `get`/`list`; dict results without secrets; inserts; cascading deletes; the table invariant `Valid` |
| `Engine` (engine.dfy) | the orchestrator as sets of blueprint and deployment ids plus the trace of every remote call; each remote call takes its answer as an argument |
| `DeploymentRetry` (engine.dfy) | the retry policy of `_create_deployment`, both as written and corrected |
| `Lifecycle` (lifecycle.dfy) | the state after one stage, after the three-stage pipeline, and after a clean-up, as functions of the old state; lemmas about them |
| `Portal` (portal.dfy) | class `Portal` with the fields `db` and `engine`; the class methods of the models are its methods, written with loops where the source loops; each is proved to end in the state the `Records`/`Lifecycle`/`Engine` functions give |

Everything outside the process is an argument of the method that uses it:
- every answer of the orchestrator (upload, delete, create with its transient errors, start, destroy, each event fetch);
- every failure of a database write (a `dbError: Option<string>` holding the exception text);
- the timestamp of a log line;
- the result of `urlparse(path).scheme` (a boolean `hasScheme`).

A run of the poll loop is given as a finite script of fetch results that makes the loop stop. The source itself loops for as long as the orchestrator reports an unfinished status.

## Model

| member | source | states |
|---|---|---|
| Statuses.IsExecutionFinished | portal/experimentstool/models.py:1205-1208 | `prepared` is finished, and no in-progress status (pending, started, cancelling, force_cancelling) is |
| Statuses.IsExecutionWrong | portal/experimentstool/models.py:1210-1213 | holds exactly for `failed` and `cancelled` |
| Statuses.Succeeded | portal/experimentstool/models.py:785-791 | the test that lets the next stage run (finished and not wrong) holds exactly for `terminated` and `prepared` |
| Statuses.WrongIsFinishedExceptSuccess | portal/experimentstool/models.py:1205-1213 | wrong holds iff finished and the status is neither `terminated` nor `prepared`; `prepared` is finished and never wrong |
| Lifecycle.IsFinished | portal/experimentstool/models.py:867-869 | an instance is finished iff its status is terminated, failed, cancelled or prepared |
| Lifecycle.IsWrong | portal/experimentstool/models.py:871-873 | an instance is wrong iff its status is failed or cancelled |
| Lifecycle.InstanceClassificationAgrees | portal/experimentstool/models.py:867-873 | `is_finished`/`is_wrong` of an instance are the execution classification of its status |
| Events.LoggedSingle | portal/experimentstool/models.py:875-919 | an event without `reported_timestamp` adds no line; any other event adds exactly the line (its timestamp, its rendered message) |
| Events.LoggedAppend | portal/experimentstool/models.py:876-919 | the lines of a batch `a + b` are the lines of `a` followed by the lines of `b` (input order) |
| Events.LoggedIsRenderOfTimestamped | portal/experimentstool/models.py:875-919 | there is exactly one line per timestamped event, in input order, and line `i` is the timestamp and rendering of the `i`-th timestamped event |
| Events.LoggableAppend | portal/experimentstool/models.py:876-919 | a batch can be logged without raising iff both of its halves can |
| Events.NodeEventText | portal/experimentstool/models.py:890-892 | a `workflow_node_event` renders as message + " " + node_instance_id + " (" + node_name + ")" |
| Events.MarkerEventText | portal/experimentstool/models.py:902-914 | a workflow started/succeeded/failed/cancelled event keeps its message unchanged, followed by the error causes |
| Events.OtherKindText | portal/experimentstool/models.py:915-917 | an event whose type is not `cloudify_event` renders as the serialised event with the timestamp removed |
| Events.TaskEventNodeKeys | portal/experimentstool/models.py:897-901 | the `"node_name" and event["node_name"]` test looks at the value only: a task event with no `node_name` key cannot be rendered, while a missing `node_instance_id` is skipped |
| Events.Render | portal/experimentstool/models.py:883-917 | the log message of one event (its properties are stated by `Events.RenderParts` and the per-type lemmas) |
| Events.RenderParts | portal/experimentstool/models.py:883-917 | an event of another type than `cloudify_event` is logged as its serialisation without the timestamp; a lifecycle event as its type-specific text followed by its cause lines, and by nothing when `error_causes` is null or empty |
| Events.Logged | portal/experimentstool/models.py:876-919 | the lines of a batch are at most as many as its events |
| Events.RenderIgnoresTimestamp | portal/experimentstool/models.py:881-916 | the rendered message does not depend on the timestamp |
| Events.StartedThenNodeEvent | portal/experimentstool/models.py:875-919 | a `workflow_started` event and a node event give two lines, ("T1", "") and ("T2", "m n1 (node1)") |
| Events.Timestamped | portal/experimentstool/models.py:880-881 | the events kept for logging all carry a timestamp and are at most as many as the input |
| Polling.GetExecutionEvents | portal/experimentstool/models.py:1181-1187 | the fetched page, total and status are returned, and the error is always `None` |
| Polling.Continues | portal/experimentstool/models.py:848 | the loop guard `not finished and (retries > 0 or error is None)` (its effect is stated by `Polling.StepEffects` and the stopping lemmas) |
| Polling.Step | portal/experimentstool/models.py:849-857 | one loop iteration; what the loop built from it promises is stated by `Polling.FailureAfterSuccessStops`, `Polling.OnlyFailuresStopAfterFive` and `Polling.SuccessesStopOnlyWhenFinished` (`Polling.StepEffects` unfolds it field by field) |
| Polling.Stops | portal/experimentstool/models.py:848-858 | the loop ends within the script (when it does is stated by `Polling.OnlyFailuresStopAfterFive` and `Polling.SuccessesStopOnlyWhenFinished`) |
| Polling.StepEffects | portal/experimentstool/models.py:847-857 | an unfolding of one iteration: a failed fetch spends one retry, sets the error and changes neither offset, status nor `finished`; a successful one clears the error, sets retries to 0, moves the offset to the reported `last`, takes the new status, and sets `finished` iff that status is finished, which ends the loop |
| Polling.FailureAfterSuccessStops | portal/experimentstool/models.py:849-857 | a failed fetch right after a successful one ends the loop |
| Polling.FailuresDrainRetries | portal/experimentstool/models.py:852-857 | from a failed state with `n` retries left, `n` failed fetches end the loop with nothing logged and offset and status unchanged |
| Polling.OnlyFailuresStopAfterFive | portal/experimentstool/models.py:844-858 | with only failed fetches, the loop stops after exactly 5 fetches, with status `pending` and offset 0; fewer than 5 do not stop it |
| Polling.FewFailuresContinue | portal/experimentstool/models.py:852-857 | fewer failed fetches than the retries left do not end the loop |
| Polling.SuccessesStopOnlyWhenFinished | portal/experimentstool/models.py:847-855 | with only successful fetches, the loop stops iff some fetched status is finished, and then it ends as finished |
| Polling.EventFetchesEndOnlyFinished | portal/experimentstool/models.py:1181-1187 | `get_execution_events` never reports an error, so the loop can only end on a finished status |
| Polling.Final | portal/experimentstool/models.py:847-858 | the state the loop ends in does not continue |
| Engine.IsArchive | portal/experimentstool/models.py:577 | a path ending in ".tar.gz" is published as an archive; a short path with no scheme never is |
| Engine.Upload | portal/experimentstool/models.py:573-590 | one publish call, from an archive URL or a file as `IsArchive` decides; the blueprint exists afterwards exactly when the upload succeeded, and then the blueprint is returned with no error |
| Engine.RemoveBlueprint | portal/experimentstool/models.py:625-635 | one delete call; no error iff the orchestrator answered well, and only then is the blueprint gone |
| Engine.DestroyDeployment | portal/experimentstool/models.py:1001-1013 | one delete call with the given `force`; no error iff the answer was good, and only then is the deployment gone |
| Engine.CreateAttempt | portal/experimentstool/models.py:979-984 | one create call; the deployment exists afterwards iff the attempt succeeded |
| Engine.Attempts | portal/experimentstool/models.py:972-999 | a series of attempts adds exactly one create call per attempt and leaves the blueprints alone; the deployment exists iff some attempt succeeded |
| Engine.CountDestroys | portal/experimentstool/models.py:799 | the number of destroy calls in a trace is at most its length |
| DeploymentRetry.PendingThenCreatedLeavesDeployment | portal/experimentstool/models.py:985-994 | as written, a pending answer then a success give the error "pending" after two create calls, and the deployment exists |
| Engine.CountDestroysAppend | portal/experimentstool/models.py:799 | destroy calls in a concatenated trace add up |
| DeploymentRetry.CreateDeploymentAsWritten | portal/experimentstool/models.py:972-999 | as written: 1 to 4 attempts; only Pending and InProgress are retried; no error only after a first-attempt success; a deployment iff the last attempt created one |
| DeploymentRetry.TransientRunAsWritten | portal/experimentstool/models.py:985-994 | `n` transient answers cost `min(n, 3) + 1` attempts, and the error is the first transient message whenever `n > 0`, even when a later attempt succeeded |
| DeploymentRetry.SuccessfulRetryStillReportsError | portal/experimentstool/models.py:985-994 | a pending environment and then a success yield the deployment together with the error "pending" |
| DeploymentRetry.CreateDeployment | portal/experimentstool/models.py:972-999 | corrected: 1 to 4 attempts; only the two transient errors are retried; no error iff a deployment was created |
| DeploymentRetry.TransientRunCorrected | portal/experimentstool/models.py:972-999 | corrected: a success after transient answers is a success with no error; more transient answers than the budget give an error and no deployment |
| Records.TunnelGet | portal/experimentstool/models.py:146-160 | the row is returned iff it exists and belongs to the caller; the error is "Tunnel does not belong to user" iff it exists and belongs to someone else; a missing id gives (None, None) |
| Records.HpcGet | portal/experimentstool/models.py:292-306 | the same for HPCs, with "HPC does not belong to user" |
| Records.AppGet | portal/experimentstool/models.py:465-485 | the same for applications; with no owner given, any existing row is returned and there is never an error |
| Records.InstanceGet | portal/experimentstool/models.py:680-693 | the same for instances, with "Application instance does not belong to user" |
| Records.ExecutionGet | portal/experimentstool/models.py:1082-1095 | the same for executions, with "Instance execution does not belong to user" |
| Records.KeyGet | portal/experimentstool/models.py:74-83 | the caller's key is returned iff the caller has one |
| Records.TunnelList | portal/experimentstool/models.py:170-183 | exactly the caller's tunnels, unchanged |
| Records.HpcList | portal/experimentstool/models.py:321-334 | exactly the caller's HPCs, unchanged |
| Records.AppList | portal/experimentstool/models.py:492-501 | exactly the applications of the given marketplace ids |
| Records.InstanceList | portal/experimentstool/models.py:700-709 | exactly the caller's instances |
| Records.ExecutionList | portal/experimentstool/models.py:1102-1113 | exactly the caller's executions of the given instance |
| Records.StripSecrets | portal/experimentstool/models.py:163-166 | the dict keeps every field except `private_key`, `private_key_password` and `password`, with its value |
| Records.TunnelDict | portal/experimentstool/models.py:186-190 | a tunnel as a dict holds id, name, owner, host and user, and no secret field |
| Records.HpcDict | portal/experimentstool/models.py:309-316 | an HPC as a dict holds its public fields, and its tunnel nested (or null); neither level holds a secret field |
| Records.TunnelGetDict | portal/experimentstool/models.py:146-167 | the dict form of `get` holds no secret field, and has a row and an error exactly when `get` does |
| Records.TunnelListDict | portal/experimentstool/models.py:170-194 | the dict form of `list` has exactly the caller's tunnels, none with a secret field |
| Records.HpcGetDict | portal/experimentstool/models.py:305-318 | the dict form of `get` of an owned HPC holds no secret field at either level |
| Records.HpcListDict | portal/experimentstool/models.py:321-349 | the dict form of `list` has exactly the caller's HPCs, none with a secret field at either level |
| Records.HpcRemoveReplyAsWritten | portal/experimentstool/models.py:396-418 | as written: the reply of `remove(..., return_dict=True)` carries the row object itself |
| Records.HpcRemoveReplyLeaksPassword | portal/experimentstool/models.py:408-418 | the reply as written hands out the password of the removed HPC |
| Records.HpcRemoveReply | portal/experimentstool/models.py:396-418 | corrected: the reply carries the stripped dict, with no secret field, and the same error |
| Records.TunnelToInputs | portal/experimentstool/models.py:251-258 | the deployment inputs of a tunnel carry its host, user and credentials |
| Records.HpcToInputs | portal/experimentstool/models.py:427-443 | the deployment inputs of an HPC carry its host, user, password, private key and private-key password, its time zone as country_tz, its manager, and its tunnel's inputs iff it has a tunnel |
| Records.OfInstance | portal/experimentstool/models.py:1029-1032 | the log lines of an instance are exactly those whose instance is it, at most all lines |
| Records.LogList | portal/experimentstool/models.py:1026-1036 | the instance's lines in creation order from `offset` on, and none past the end; the owner argument is not consulted |
| Records.OfInstanceAppend | portal/experimentstool/models.py:1026-1036 | the lines of an instance in `a + b` are its lines in `a` followed by those in `b` |
| Records.LogPagingHasNoGaps | portal/experimentstool/models.py:1026-1036 | a page fetched at `offset`, followed by a later page fetched from its end, is exactly the later page fetched at `offset`: no line is missed or repeated |
| Records.AddLog | portal/experimentstool/models.py:1043-1058 | one line is added at the end, under the next id; nothing else changes |
| Records.AddLogValid | portal/experimentstool/models.py:1043-1058 | adding a line to an existing instance keeps the table invariant |
| Records.LogRows | portal/experimentstool/models.py:917-919 | one row per line, for the instance, with consecutive ids |
| Records.LogRowsAppend | portal/experimentstool/models.py:917-919 | rows for `a + b` are rows for `a` followed by rows for `b` |
| Records.AppendLogsEffect | portal/experimentstool/models.py:875-919 | `append_logs` changes only the log and the id counter (its rows are stated by `Records.AppendLogsLines`) |
| Records.AppendLogsLines | portal/experimentstool/models.py:875-919 | `append_logs` adds, after the existing lines, one row per timestamped event, for the instance, with the event's `reported_timestamp` as its time and its rendered message, in input order; the instance's own lines grow by exactly these |
| Records.AppendLogsValid | portal/experimentstool/models.py:875-919 | appending a batch keeps the table invariant |
| Records.AppendRowsInOrder | portal/experimentstool/models.py:917-919 | new rows get ids above every old one, so creation order is kept |
| Records.AppendLogsTwice | portal/experimentstool/models.py:847-855 | appending `a` and then `b` equals appending `a + b` |
| Records.AppendLogsOne | portal/experimentstool/models.py:876-919 | appending one event adds no row without a timestamp and the single rendered row with one |
| Records.SetStatus | portal/experimentstool/models.py:862-865 | only the instance's status changes |
| Records.SetStatusValid | portal/experimentstool/models.py:862-865 | a status write keeps the table invariant |
| Records.SetStatusSame | portal/experimentstool/models.py:862-865 | writing the status an instance already has changes nothing |
| Records.AddExecution | portal/experimentstool/models.py:1142-1151 | the execution is stored under the next id; nothing else changes |
| Records.AddExecutionValid | portal/experimentstool/models.py:1142-1151 | storing an execution of an existing instance, under a fresh id, keeps the table invariant |
| Records.AddTunnel | portal/experimentstool/models.py:196-220 | the tunnel is stored under a fresh id, nothing else changes, and the table invariant holds |
| Records.AddHpc | portal/experimentstool/models.py:352-391 | the same for an HPC whose tunnel exists |
| Records.AddKey | portal/experimentstool/models.py:90-103 | the same for a key |
| Records.AddApp | portal/experimentstool/models.py:507-531 | the same for an application |
| Records.AddInstance | portal/experimentstool/models.py:716-750 | the same for an instance of an existing application |
| Records.DeleteHpc | portal/experimentstool/models.py:396-406 | exactly that HPC goes, the invariant holds |
| Records.DeleteKey | portal/experimentstool/models.py:113-123 | exactly that key goes, the invariant holds |
| Records.WithoutLogsOf | portal/experimentstool/models.py:1016-1020 | the lines that remain are exactly those of the surviving instances |
| Records.DropLogs | portal/experimentstool/models.py:764-767 | no remaining line has a deleted id |
| Records.DropLogsTwice | portal/experimentstool/models.py:764-767 | deleting the ids of `a` and then of `b` is deleting those of `a + b` |
| Records.DropLogsMissing | portal/experimentstool/models.py:764-767 | deleting ids no line has changes nothing |
| Records.DropLogsSelecting | portal/experimentstool/models.py:764-767 | deleting the ids of exactly the lines of some instances keeps exactly the other instances' lines |
| Records.DropInstanceLogs | portal/experimentstool/models.py:764-767 | deleting the listed lines of an instance one by one leaves exactly the other instances' lines |
| Records.NoLogsOfGone | portal/experimentstool/models.py:1016-1020 | a deleted instance has no lines left |
| Records.FilteredLogsKeepInvariants | portal/experimentstool/models.py:1016-1020 | dropping the lines of some instances keeps id order and id bounds |
| Records.ShrunkValid | portal/experimentstool/models.py:755-778 | dropping log lines and executions keeps the table invariant |
| Records.DeleteInstances | portal/experimentstool/models.py:1016-1020 | deleting instances cascades to exactly their lines and executions; the invariant holds |
| Records.DeleteInstance | portal/experimentstool/models.py:947-957 | deleting an instance removes it, all its lines and all its executions |
| Records.DeleteApp | portal/experimentstool/models.py:551-561 | deleting an application removes exactly it and its instances, the surviving instances unchanged; the cascade removes exactly the deleted instances' lines and executions; the other tables stay |
| Records.DeleteTunnel | portal/experimentstool/models.py:224-232 | deleting a tunnel removes exactly it and the HPCs that use it (cascade) |
| Lifecycle.CreationError | portal/experimentstool/models.py:1120-1153 | no error iff the stage goes on to poll; a foreign caller gets "Can't create execution because instance doesn't belong to user" |
| Lifecycle.Upper | portal/experimentstool/models.py:842 | the upper-cased name has the same length, each character upper-cased |
| Lifecycle.StageResult | portal/experimentstool/models.py:806-860 | a stage aborted at creation returns `cancelled` without polling; otherwise it returns the status the poll loop ends with |
| Lifecycle.StageLines | portal/experimentstool/models.py:816-855 | an aborted stage appends exactly one line; any other stage appends the separator "-------" + upper(workflow) + "-------" and then the lines of the events polled |
| Lifecycle.StageLinesRender | portal/experimentstool/models.py:838-855 | after the separator, the lines are exactly the rendered timestamped events of the polled batches, in order |
| Lifecycle.AbortMessage | portal/experimentstool/models.py:816-836 | the abort line: "Couldn't execute the workflow '<w>': <error>" with an error, "Couldn't create the execution for workflow '<w>'" without one (its properties are stated by `Lifecycle.StageLines`) |
| Lifecycle.StageEngine | portal/experimentstool/models.py:1126-1136 | the owner's stage makes exactly one start call with `force=False`; a foreign caller's makes none |
| Lifecycle.StageDb | portal/experimentstool/models.py:816-860 | a stage changes the instance only in its status |
| Lifecycle.StageDbValid | portal/experimentstool/models.py:806-860 | a stage keeps the table invariant |
| Lifecycle.StageDbInstances | portal/experimentstool/models.py:816-826 | an aborted stage sets the status to `cancelled`; a polling stage leaves the status alone |
| Lifecycle.StageDbLogs | portal/experimentstool/models.py:816-858 | a stage appends exactly its lines to the log, stores one execution row iff it polls, and changes nothing else |
| Lifecycle.Ran | portal/experimentstool/models.py:781-795 | between one and three stages run |
| Lifecycle.PipelineStatus | portal/experimentstool/models.py:785-797 | the stored status is the last stage's; when fewer than three stages ran, it is one that did not succeed |
| Lifecycle.StartCalls | portal/experimentstool/models.py:1126-1136 | one start call per stage run, only for the owner |
| Lifecycle.StartCallsNext | portal/experimentstool/models.py:785-791 | running one more stage adds its start call at the end |
| Lifecycle.PipelineCalls | portal/experimentstool/models.py:785-799 | the calls are one start per stage run (none for a foreign caller), in stage order with `force=False`, and then the forced destroy as the last call |
| Lifecycle.StagesDb | portal/experimentstool/models.py:785-791 | the stages run change the instance only in its status |
| Lifecycle.PipelineDb | portal/experimentstool/models.py:781-804 | the tables after `run_workflows` (its properties are stated by `Lifecycle.PipelineDbValid`, `Lifecycle.PipelineDbInstances` and `Lifecycle.PipelineDbLogs`) |
| Lifecycle.StagesEngine | portal/experimentstool/models.py:785-791 | the orchestrator after the stages run (its calls are stated by `Lifecycle.PipelineEngineEffect`) |
| Lifecycle.PipelineEngine | portal/experimentstool/models.py:781-804 | the orchestrator after `run_workflows` (its properties are stated by `Lifecycle.PipelineEngineEffect`) |
| Lifecycle.NoDestroysAmongStarts | portal/experimentstool/models.py:785-791 | starting stages destroys nothing |
| Lifecycle.DestroyedOnceAtTheEnd | portal/experimentstool/models.py:799 | when no event fetch raises, every path makes exactly one destroy call, forced, and it is the last call |
| Lifecycle.StagesAreGated | portal/experimentstool/models.py:785-791 | run_jobs is started iff the owner runs it and install succeeded; uninstall iff run_jobs succeeded too |
| Lifecycle.StagesDbValid | portal/experimentstool/models.py:781-795 | the stages keep the table invariant |
| Lifecycle.PipelineDbValid | portal/experimentstool/models.py:781-804 | the whole pipeline keeps the table invariant |
| Lifecycle.StagesDbInstances | portal/experimentstool/models.py:781-795 | the stages change no instance row but the pipeline's own, and that one only in its status |
| Lifecycle.PipelineDbInstances | portal/experimentstool/models.py:781-804 | afterwards the instance's status is the status of the last stage run, persisted by `_update_status` |
| Lifecycle.PipelineDbLogs | portal/experimentstool/models.py:781-804 | the log gets the lines of the stages run, in stage order, and nothing else |
| Lifecycle.PipelineEngineEffect | portal/experimentstool/models.py:781-804 | the remote calls are the stages' start calls and then one forced destroy; blueprints stay; the deployment is gone iff the destroy succeeded |
| Lifecycle.ForeignCallerRunsNothing | portal/experimentstool/models.py:785-798 | for a foreign caller only install is tried, it ends `cancelled`, and the only remote call is the forced destroy |
| Lifecycle.FailedFetchesStorePending | portal/experimentstool/models.py:844-858 | for fetches that report an error, which `get_execution_events` never does (`Polling.EventFetchesEndOnlyFinished`): when install's fetches all fail, at least five were made, nothing else runs, and the instance ends `pending` |
| Lifecycle.CleanUp | portal/experimentstool/models.py:755-778 | the instance becomes `prepared`, loses all its lines and all of the caller's executions of it; nothing else changes |
| Lifecycle.ListedExecutions | portal/experimentstool/models.py:769-773 | deleting the listed executions leaves exactly the other executions |
| Lifecycle.CleanUpValid | portal/experimentstool/models.py:755-778 | the clean-up keeps the table invariant and leaves the instance `prepared` with none of its lines and none of the caller's executions |
| Lifecycle.PollLogStep | portal/experimentstool/models.py:847-855 | one loop iteration appends its batch after the ones before it; a failed fetch appends nothing |
| Lifecycle.NewInstance | portal/experimentstool/models.py:731-743 | the stored row is named after the deployment id, belongs to the caller and the application, carries the deployment's description, and starts `prepared`, finished and not wrong |
| Lifecycle.InstanceEvents | portal/experimentstool/models.py:921-945 | the reply's logs are `ApplicationInstanceLog.list` at `offset`, the instance's lines from `offset` on, `last` is `offset` plus their number, and `finished` is the classification of the instance's status |
| Lifecycle.InstanceEventsPaging | portal/experimentstool/models.py:921-945 | polling again at the same offset sees what was seen before and then the newer lines |
| Portal.Portal.UpdateStatus | portal/experimentstool/models.py:862-865 | the instance gets the status, and the row is written iff the status differs |
| Portal.Portal.CreateLog | portal/experimentstool/models.py:1043-1058 | with no instance the error is "Application instance does not belong to user" and nothing is stored; otherwise the line is stored unless the database write fails, whose text is the error |
| Portal.Portal.AppendLogs | portal/experimentstool/models.py:875-919 | the loop over events ends in the state `Records.AppendLogsEffect` describes |
| Portal.Portal.ExecutionCreate | portal/experimentstool/models.py:1120-1155 | missing or foreign instance: an error, no remote call; otherwise one start call, and a row is stored only when the start and the write both succeed |
| Portal.Portal.PollExecution | portal/experimentstool/models.py:844-858 | when no event fetch raises, the poll loop returns the status the script ends with and appends exactly the events of its successful fetches |
| Portal.Portal.RunWorkflow | portal/experimentstool/models.py:806-860 | when no event fetch raises, a stage ends in the state, result and remote calls the `Lifecycle` stage functions give |
| Portal.Portal.RunStages | portal/experimentstool/models.py:785-795 | the gated sequence of stages ends in the state `Lifecycle.StagesDb` gives |
| Portal.Portal.RunWorkflows | portal/experimentstool/models.py:781-804 | when no event fetch raises, the pipeline ends in the state, status and remote calls the `Lifecycle` pipeline functions give |
| Portal.Portal.KeyCreate | portal/experimentstool/models.py:90-105 | the key is stored under a fresh id unless the write fails, whose text is the error |
| Portal.Portal.KeyUpdate | portal/experimentstool/models.py:107-110 | only the key's code changes |
| Portal.Portal.KeyRemove | portal/experimentstool/models.py:113-125 | returns the caller's key and deletes it; with none, the error is "Can't delete key because it doesn't exists" and nothing changes |
| Portal.Portal.TunnelCreate | portal/experimentstool/models.py:196-222 | the tunnel is stored under a fresh id unless the write fails |
| Portal.Portal.TunnelRemove | portal/experimentstool/models.py:225-242 | an owned tunnel is deleted with its HPCs; a foreign one gives the not-owner error; a missing one gives "Can't delete tunnel because it doesn't exists"; the dict reply holds no secret |
| Portal.Portal.HpcCreate | portal/experimentstool/models.py:352-393 | a foreign tunnel gives the tunnel not-owner error, a missing tunnel "Can't create HPC because tunnel doesn't exists"; otherwise the HPC is stored unless the write fails |
| Portal.Portal.HpcRemove | portal/experimentstool/models.py:396-418 | an owned HPC is deleted; foreign or missing gives the matching error and nothing changes; the reply is the corrected one, with no secret |
| Portal.Portal.AppCreate | portal/experimentstool/models.py:507-533 | a failed upload stores nothing; a row is stored only after a successful upload; when the store fails the uploaded blueprint is removed |
| Portal.Portal.AppRemove | portal/experimentstool/models.py:552-566 | for the owner the blueprint delete is made, and the row (with its instances) is deleted only when it succeeded; foreign or missing gives an error and no remote call |
| Portal.Portal.CreateDeploymentRetrying | portal/experimentstool/models.py:972-999 | as written: the bounded retry loop returns what `DeploymentRetry.CreateDeploymentAsWritten` gives and makes exactly its attempts |
| Portal.Portal.CreateDeploymentRetryingCorrected | portal/experimentstool/models.py:972-999 | corrected: the loop returns what `DeploymentRetry.CreateDeployment` gives and makes exactly its attempts |
| Portal.Portal.InstanceCreate | portal/experimentstool/models.py:715-752 | as written: any error from `_create_deployment` stores nothing and destroys nothing, even when a deployment was created; with no error, the deployment is stored as a `prepared` instance, or destroyed if the store fails |
| Portal.Portal.InstanceCreateAfterPendingRetry | portal/experimentstool/models.py:715-752 | as written, a pending answer and then a success leave no instance row, the error "pending", and the created deployment alive on the orchestrator |
| Portal.Portal.InstanceCreateCorrected | portal/experimentstool/models.py:715-752 | with the corrected retry: a failed deployment stores nothing; a created one is stored as a `prepared` instance, or destroyed if the store fails |
| Portal.Portal.InstanceRemove | portal/experimentstool/models.py:947-964 | for the owner one destroy call is made, and the row is deleted iff the destroy succeeded or the instance is finished; foreign or missing gives an error and no remote call |
| Portal.Portal.DeleteLogRows | portal/experimentstool/models.py:764-767 | the loop deletes exactly the listed lines |
| Portal.Portal.DeleteExecutionRows | portal/experimentstool/models.py:769-773 | the loop deletes exactly the listed executions |
| Portal.Portal.CleanUpExecution | portal/experimentstool/models.py:755-778 | ends in the state `Lifecycle.CleanUp` gives, keeping the table invariant |

## Left out

- The `backend` decorator (threads): `run_workflows` and `clean_up_execution` are ordinary sequential methods, and interleavings are not modelled.
- `time.sleep`, `connection.close()`, `LOGGER` calls, `__str__` methods and the `Orchestrator` permissions table have no effect in the model.
- `datetime.now()` is an argument: the timestamp of a stage's own lines.
- The database column limits (`max_length`, among them the 5-character status column) are constraints of the database, not logic.
- `model_to_dict` is modelled by explicit field maps. `json.dumps` of an event is a deterministic stand-in (`Events.Dumps`) that keeps every field except the timestamp. Key order and escaping of the real serialiser are not modelled.
- `Lifecycle.Upper` upper-cases ASCII letters only; Python's Unicode case mapping is not modelled.
- `urlparse(path).scheme` is the argument `hasScheme`.
- The REST details of the orchestrator client are not modelled: pagination, the page size of 100, and which offset is sent with a fetch. A fetch is a batch of events, a reported total and a status.
- What a deployment's inputs contain is not passed to the model of the remote create call.
- `Application.get_inputs`, `_get_inputs` and `_get_blueprints` are read-only helpers outside the lifecycle; they are not modelled.
- The `return_dict=True` forms are modelled only for tunnels and HPCs, where secrets are stripped. Elsewhere the dict is another encoding of the same result.
- Lists are maps from primary key to row; the order Django returns rows in is not modelled, except for log lines, which keep creation order.
- The log writes inside `run_workflow`, `append_logs` and `clean_up_execution` are assumed to succeed; a failure of those writes is only logged by the source.
- Portal.Portal.PollExecution: requires a fetch script that makes the loop stop, and events that can be rendered; the source loops forever otherwise, or raises.
- Events.Renderable: a lifecycle event must carry `error_causes` and, for node and task events, `node_name`; the source raises a KeyError otherwise.
- Records.HpcGetDict: requires an owned HPC. For a missing or foreign one the source reads the unbound `hpc_dict` and raises.
- Lifecycle.InstanceEvents: requires an instance owned by the caller. Otherwise the source dereferences `None` and raises.
- Records.KeyGet: requires at most one key per owner, because the source's `objects.get` raises when there are two. Portal.Portal.KeyRemove requires the same.
- Portal.Portal.AppCreate: requires a failed upload to carry a non-empty message. With an empty message the source goes on to the local create with no blueprint and raises.
- Portal.Portal.CreateDeploymentRetrying, Portal.Portal.CreateDeploymentRetryingCorrected, Portal.Portal.InstanceCreate and Portal.Portal.InstanceCreateCorrected: require at least four scripted answers, one for each possible attempt.
- Portal.Portal.PollExecution / Lifecycle.DestroyedOnceAtTheEnd: the client calls of `_get_execution_events` (models.py:1193-1197) are assumed not to raise. When one raises, the `CloudifyClientError` leaves `run_workflows`: the thread ends with no status write (797) and no destroy (799). Portal.Portal.RunWorkflows states its result for runs where no fetch raises.
- Ids: the model numbers every table from one shared counter `nextId`, while Django numbers each table on its own. The ids in the create methods' `ensures` are the model's ids.
- Portal.Portal.TunnelRemove / Portal.Portal.HpcRemove: the dict replies carry `"id"` as the deleted row's pk. In the source, Django sets `pk` to `None` after `delete()`, so `_to_dict` yields `"id": null` (models.py:229-238, 408-418).
- Events.Event: a `message`, `reported_timestamp` or `event_type` key that is present with the value null cannot be expressed, nor a null `type`. The first three are `Option<string>` (absent or a string) and `type` is a string. In the source, a cloudify event with a null `event_type` matches none of the type tests and is logged as its serialisation followed by its cause lines (models.py:889, 907-914), and a null `type` is logged as the serialisation (915-917). In the model, `Events.Renderable` rejects a missing `event_type` as the KeyError it is, so these null cases are outside the model's domain.
- Portal.Portal.AppendLogs: states the new state but not the table invariant. Records.AppendLogsValid proves that the invariant is kept.
- The branch of `run_workflow` for a creation that returns neither an execution nor an error is kept. `Lifecycle.CreationError` shows it is never taken.
- The warning branches of `clean_up_execution` are not modelled: neither list operation ever reports an error, so they are never taken.

## Findings

| source | as written | input that shows it | evidently intended | confidence | as-written member | corrected member |
|---|---|---|---|---|---|---|
| portal/experimentstool/models.py:985-994 | after a transient error the retry's result is returned, but `error = str(err)` then replaces the retry's error, so a retry that succeeds still reports an error; `AppInstance.create` then stores no row, and the deployment it created is never destroyed | first attempt Pending ("pending"), second attempt Created | a successful retry returns the deployment with no error | not executed | DeploymentRetry.CreateDeploymentAsWritten | DeploymentRetry.CreateDeployment |
| portal/experimentstool/models.py:408-418 | `remove(..., return_dict=True)` builds the stripped `hpc_dict` and then returns the row object `hpc`, with its password and private key | any owned HPC removed with `return_dict=True` | reply with `hpc_dict`, as `get` does | not executed | Records.HpcRemoveReplyAsWritten | Records.HpcRemoveReply |

In the first row:
- `DeploymentRetry.SuccessfulRetryStillReportsError` exhibits the discrepancy;
- `DeploymentRetry.PendingThenCreatedLeavesDeployment` shows that the deployment then exists while an error is reported;
- `Portal.Portal.InstanceCreate` is `AppInstance.create` as written; `Portal.Portal.InstanceCreateAfterPendingRetry` shows that it then stores no row and leaves the deployment alive;
- `DeploymentRetry.TransientRunCorrected` proves the intended behaviour;
- `Portal.Portal.InstanceCreateCorrected` is `AppInstance.create` with the corrected policy.

In the second row, `Records.HpcRemoveReplyLeaksPassword` exhibits the leak, and `Portal.Portal.HpcRemove` replies with the corrected form.

Where the prose description of the tool and the code differ, the model follows the code:
- a run of transient answers reports the first, outermost message, not the last;
- a workflow-started event and a node event give two log lines;
- the loop's error branch (models.py:856-857) is never taken, because `get_execution_events` reports no error on any path (`Polling.EventFetchesEndOnlyFinished`). A fetch that really fails raises instead, and the instance stays `started` (see "## Left out"). `Lifecycle.FailedFetchesStorePending` states what the loop would do for fetches that report an error: settle after five fetches, with `run_workflows` persisting `pending`.

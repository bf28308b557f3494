/** The portal as one object: the local tables and the remote orchestrator,
    with the class methods of the experiments tool's models as methods that
    update them. The orchestrator's answers and the failures of database
    writes are arguments. Each method states its new state through the
    functions of `Records`, `Engine` and `Lifecycle`. */
module Portal {
  import opened Wrappers
  import opened Statuses
  import opened Events
  import opened Polling
  import opened Records
  import opened Engine
  import DeploymentRetry
  import opened Lifecycle

  class Portal {
    var db: Db
    var engine: Engine

    ghost predicate Valid()
      reads this`db
    {
      Records.Valid(db)
    }

    constructor (db0: Db, engine0: Engine)
      requires Records.Valid(db0)
      ensures Valid() && db == db0 && engine == engine0
    {
      db := db0;
      engine := engine0;
    }

    // -------------------------------------------------------------------
    // AppInstance: status and logs

    /** `_update_status`: the row is written only when the status differs. */
    method UpdateStatus(pk: Pk, status: string) returns (wrote: bool)
      requires Valid() && pk in db.instances
      modifies this`db
      ensures Valid() && engine == old(engine)
      ensures db == SetStatus(old(db), pk, status)
      ensures wrote <==> old(db.instances[pk].status) != status
    {
      SetStatusValid(db, pk, status);
      if status != db.instances[pk].status {
        db := SetStatus(db, pk, status);
        wrote := true;
      } else {
        SetStatusSame(db, pk);
        wrote := false;
      }
    }

    /** `ApplicationInstanceLog.create`: no instance is the ownership error;
        a failed insert returns the database's message. */
    method CreateLog(instance: Option<Pk>, generated: string, message: string, dbError: Option<string>)
      returns (error: Option<string>)
      requires Valid() && (instance.Some? ==> instance.value in db.instances)
      modifies this`db
      ensures Valid() && engine == old(engine)
      ensures instance.None? ==> error == Some(InstanceNotOwned) && db == old(db)
      ensures instance.Some? ==> error == dbError
      ensures instance.Some? && dbError.None? ==> db == AddLog(old(db), instance.value, generated, message)
      ensures instance.Some? && dbError.Some? ==> db == old(db)
    {
      if instance.None? {
        error := Some(InstanceNotOwned);
      } else if dbError.Some? {
        error := dbError;
      } else {
        AddLogValid(db, instance.value, generated, message);
        db := AddLog(db, instance.value, generated, message);
        error := None;
      }
    }

    /** `append_logs(events)`: one log row per event with a timestamp, in
        order, with the event's rendered text. */
    method AppendLogs(pk: Pk, events: seq<Event>)
      requires pk in db.instances && Loggable(events)
      modifies this`db
      ensures engine == old(engine)
      ensures db == AppendLogsEffect(old(db), pk, events)
    {
      ghost var db0 := db;
      assert db == AppendLogsEffect(db0, pk, events[..0]);
      for i := 0 to |events|
        invariant Loggable(events[..i])
        invariant db == AppendLogsEffect(db0, pk, events[..i])
      {
        var event := events[i];
        assert events[..i + 1] == events[..i] + [event];
        assert events == events[..i + 1] + events[i + 1..];
        LoggableAppend(events[..i + 1], events[i + 1..]);
        LoggableAppend(events[..i], [event]);
        AppendLogsTwice(db0, pk, events[..i], [event]);
        AppendLogsOne(db, pk, event);
        if HasTimestamp(event) {
          db := AddLog(db, pk, event.reportedTimestamp.value, Render(event));
        }
      }
      assert events[..|events|] == events;
    }

    // -------------------------------------------------------------------
    // WorkflowExecution.create

    /** `WorkflowExecution.create(instance, workflow, owner, force)`: only the
        instance's owner reaches the orchestrator; a started execution is
        stored unless the insert fails, in which case the remote execution is
        returned with the error. */
    method ExecutionCreate(instance: Option<Pk>, workflow: string, owner: UserId, force: bool,
                           start: StartOutcome, recordError: Option<string>, now: string)
      returns (execution: Execution, error: Option<string>)
      requires Valid() && (instance.Some? ==> instance.value in db.instances)
      modifies this
      ensures Valid()
      ensures execution.NoExecution? ==> error.Some?
      ensures error.None? <==> execution.Stored?
      ensures instance.None? ==>
                execution == NoExecution && error == Some(NoInstance) && db == old(db) && engine == old(engine)
      ensures instance.Some? && !Owns(old(db), instance.value, owner) ==>
                execution == NoExecution && error == Some(NotInstanceOwner) && db == old(db) && engine == old(engine)
      ensures instance.Some? && Owns(old(db), instance.value, owner) ==>
                engine == old(engine).(calls := old(engine.calls) +
                                         [StartExecution(old(db.instances[instance.value].name), workflow, force)])
      ensures instance.Some? && Owns(old(db), instance.value, owner) && start.StartFailed? ==>
                execution == NoExecution && error == Some(start.message) && db == old(db)
      ensures instance.Some? && Owns(old(db), instance.value, owner) && start.ExecutionStarted? && recordError.Some? ==>
                execution == RemoteOnly(start.executionId) && error == recordError && db == old(db)
      ensures instance.Some? && Owns(old(db), instance.value, owner) && start.ExecutionStarted? && recordError.None? ==>
                execution == Stored(old(db.nextId), start.executionId) && error.None? &&
                db == AddExecution(old(db), WorkflowExecution(start.executionId, instance.value, workflow, now, owner))
    {
      if instance.None? {
        execution, error := NoExecution, Some(NoInstance);
      } else if db.instances[instance.value].owner != owner {
        execution, error := NoExecution, Some(NotInstanceOwner);
      } else {
        engine := engine.(calls := engine.calls + [StartExecution(db.instances[instance.value].name, workflow, force)]);
        match start
        case StartFailed(message) =>
          execution, error := NoExecution, Some(message);
        case ExecutionStarted(id) =>
          if recordError.Some? {
            execution, error := RemoteOnly(id), recordError;
          } else {
            execution, error := Stored(db.nextId, id), None;
            AddExecutionValid(db, WorkflowExecution(id, instance.value, workflow, now, owner));
            db := AddExecution(db, WorkflowExecution(id, instance.value, workflow, now, owner));
          }
      }
    }

    // -------------------------------------------------------------------
    // run_workflow and run_workflows

    /** The poll loop of `run_workflow`: fetch until the status is finished
        or a failed fetch finds the retry budget spent, appending the logs of
        every batch fetched. */
    method PollExecution(pk: Pk, fetches: seq<Fetch>) returns (status: string)
      requires Valid() && pk in db.instances
      requires Stops(Initial, fetches) && Loggable(Consumed(Initial, fetches))
      modifies this`db
      ensures Valid() && engine == old(engine)
      ensures status == Final(Initial, fetches).status
      ensures db == AppendLogsEffect(old(db), pk, Consumed(Initial, fetches))
    {
      var retries := 5;
      var offset := 0;
      var finished := false;
      var errorIsNone := true;
      status := Pending;
      var k := 0;
      ghost var seen: seq<Event> := [];
      ghost var db0 := db;
      assert db == AppendLogsEffect(db0, pk, []);
      while !finished && (retries > 0 || errorIsNone)
        invariant 0 <= k <= |fetches|
        invariant Stops(Poll(retries, offset, status, finished, errorIsNone), fetches[k..])
        invariant Final(Poll(retries, offset, status, finished, errorIsNone), fetches[k..]) == Final(Initial, fetches)
        invariant seen + Consumed(Poll(retries, offset, status, finished, errorIsNone), fetches[k..]) ==
                  Consumed(Initial, fetches)
        invariant Loggable(seen) && pk in db.instances
        invariant db == AppendLogsEffect(db0, pk, seen)
        decreases |fetches| - k
      {
        ghost var p := Poll(retries, offset, status, finished, errorIsNone);
        var fetch := fetches[k];
        assert fetches[k..][0] == fetch && fetches[k..][1..] == fetches[k + 1..];
        PollLogStep(db0, pk, seen, p, fetches[k..], Consumed(Initial, fetches));
        match fetch {
          case FetchOk(events, last, fetchedStatus) =>
            retries := 0;
            offset := last;
            status := fetchedStatus;
            finished := IsExecutionFinished(fetchedStatus);
            errorIsNone := true;
            AppendLogs(pk, events);
          case FetchErr(_) =>
            retries := retries - 1;
            errorIsNone := false;
        }
        seen := seen + EventsOf(fetch);
        k := k + 1;
      }
      assert seen == Consumed(Initial, fetches);
      AppendLogsValid(db0, pk, seen);
    }

    /** `run_workflow(workflow, owner)`. When the execution cannot be created
        the instance is set `cancelled`, one abort line is logged and the
        stage returns `cancelled`; otherwise the separator line is logged,
        the poll loop runs, and its final status is returned without being
        stored. */
    method RunWorkflow(pk: Pk, workflow: string, owner: UserId, s: StageScript) returns (status: string)
      requires Valid() && pk in db.instances && StageReady(Owns(db, pk, owner), s)
      modifies this
      ensures Valid()
      ensures status == StageResult(old(Owns(db, pk, owner)), s)
      ensures db == StageDb(old(db), pk, workflow, owner, s)
      ensures engine == StageEngine(old(engine), old(db.instances[pk].name), old(Owns(db, pk, owner)), workflow)
    {
      ghost var created := StageEngine(engine, db.instances[pk].name, Owns(db, pk, owner), workflow);
      var execution, error := ExecutionCreate(Some(pk), workflow, owner, false, s.start, s.recordError, s.now);
      assert engine == created;
      if error.Some? || execution.NoExecution? {
        status := Cancelled;
        var wrote := UpdateStatus(pk, Cancelled);
        var logError := CreateLog(Some(pk), s.now, AbortMessage(workflow, error), None);
      } else {
        var logError := CreateLog(Some(pk), s.now, Separator(workflow), None);
        status := PollExecution(pk, s.fetches);
      }
    }

    /** The gated stages of `run_workflows`: install; run_jobs only after an
        install that finished and is not wrong; uninstall only after such a
        run_jobs. Returns the last stage's status. */
    method RunStages(pk: Pk, owner: UserId, p: PipelineScript) returns (status: string)
      requires Valid() && pk in db.instances && PipelineReady(Owns(db, pk, owner), p)
      modifies this
      ensures Valid()
      ensures status == PipelineStatus(old(Owns(db, pk, owner)), p)
      ensures db == StagesDb(old(db), pk, owner, p)
      ensures engine == StagesEngine(old(engine), old(db.instances[pk].name), old(Owns(db, pk, owner)), p)
    {
      ghost var owned := Owns(db, pk, owner);
      status := RunWorkflow(pk, Install, owner, p.stages[0]);
      assert Owns(db, pk, owner) == owned && status == StageResult(owned, p.stages[0]);
      if Succeeded(status) {
        status := RunWorkflow(pk, RunJobs, owner, p.stages[1]);
        assert Owns(db, pk, owner) == owned && status == StageResult(owned, p.stages[1]);
        if Succeeded(status) {
          status := RunWorkflow(pk, Uninstall, owner, p.stages[2]);
          assert Ran(owned, p) == 3 && status == StageResult(owned, p.stages[2]);
        } else {
          assert Ran(owned, p) == 2;
        }
      } else {
        assert Ran(owned, p) == 1;
      }
    }

    /** `run_workflows(owner)`: `started` is stored, the gated stages run,
        the last stage's status is stored and returned, and the deployment
        is destroyed with force as the last remote call. */
    method RunWorkflows(pk: Pk, owner: UserId, p: PipelineScript) returns (status: string)
      requires Valid() && pk in db.instances && PipelineReady(Owns(db, pk, owner), p)
      modifies this
      ensures Valid()
      ensures status == PipelineStatus(old(Owns(db, pk, owner)), p)
      ensures db == PipelineDb(old(db), pk, owner, p)
      ensures engine == PipelineEngine(old(engine), old(db.instances[pk].name), old(Owns(db, pk, owner)), p)
    {
      var name := db.instances[pk].name;
      var wrote := UpdateStatus(pk, Started);
      status := RunStages(pk, owner, p);
      wrote := UpdateStatus(pk, status);
      engine := DestroyDeployment(engine, name, true, p.destroy).0;
    }

    // -------------------------------------------------------------------
    // DataCatalogueKey

    /** `DataCatalogueKey.create(code, owner)`: a new key row, or the
        database's error and no row. */
    method KeyCreate(code: string, owner: UserId, dbError: Option<string>) returns (key: Option<Pk>, error: Option<string>)
      requires Valid()
      modifies this`db
      ensures Valid() && error == dbError
      ensures dbError.None? ==> key == Some(old(db.nextId)) && db == AddKey(old(db), CatalogueKey(code, owner))
      ensures dbError.Some? ==> key.None? && db == old(db)
    {
      if dbError.Some? {
        key, error := None, dbError;
      } else {
        key, error := Some(db.nextId), None;
        db := AddKey(db, CatalogueKey(code, owner));
      }
    }

    /** `DataCatalogueKey.update(code)`: only the code of that row changes. */
    method KeyUpdate(pk: Pk, code: string)
      requires Valid() && pk in db.keys
      modifies this`db
      ensures Valid()
      ensures db == old(db).(keys := old(db.keys)[pk := old(db.keys[pk]).(code := code)])
    {
      db := db.(keys := db.keys[pk := db.keys[pk].(code := code)]);
    }

    /** `DataCatalogueKey.remove(owner)`: the owner's key is deleted, or the
        error says there is none. The lookup raises when the owner has two
        keys, so at most one is required. */
    method KeyRemove(owner: UserId) returns (key: Option<CatalogueKey>, error: Option<string>)
      requires Valid()
      requires forall p, q :: (p in db.keys && q in db.keys && db.keys[p].owner == owner &&
                               db.keys[q].owner == owner) ==> p == q
      modifies this`db
      ensures Valid()
      ensures key == KeyGet(old(db), owner)
      ensures key.None? ==> error == Some(KeyMissing) && db == old(db)
      ensures key.Some? ==> error.None?
      ensures forall k :: k in db.keys <==> k in old(db.keys) && old(db.keys[k].owner) != owner
      ensures forall k :: k in db.keys ==> db.keys[k] == old(db.keys[k])
      ensures db == old(db).(keys := db.keys)
    {
      key := KeyGet(db, owner);
      if key.Some? {
        var pk :| pk in db.keys && db.keys[pk].owner == owner;
        db := DeleteKey(db, pk);
        error := None;
      } else {
        error := Some(KeyMissing);
      }
    }

    // -------------------------------------------------------------------
    // TunnelConnection and HPCInfrastructure

    /** `TunnelConnection.create`: a new tunnel row, or the database's error. */
    method TunnelCreate(t: Tunnel, dbError: Option<string>) returns (tunnel: Option<Pk>, error: Option<string>)
      requires Valid()
      modifies this`db
      ensures Valid() && error == dbError
      ensures dbError.None? ==> tunnel == Some(old(db.nextId)) && db == AddTunnel(old(db), t)
      ensures dbError.Some? ==> tunnel.None? && db == old(db)
    {
      if dbError.Some? {
        tunnel, error := None, dbError;
      } else {
        tunnel, error := Some(db.nextId), None;
        db := AddTunnel(db, t);
      }
    }

    /** `TunnelConnection.remove(pk, owner)`: only the owner's existing tunnel
        is deleted, and with it the HPC rows that use it; `reply` is the
        secret-free dictionary form of the returned row. */
    method TunnelRemove(pk: Pk, owner: UserId) returns (tunnel: Option<Tunnel>, error: Option<string>,
                                                       reply: Option<map<string, Value>>)
      requires Valid()
      modifies this`db
      ensures Valid()
      ensures tunnel == TunnelGet(old(db), pk, owner).row
      ensures pk in old(db.tunnels) && old(db.tunnels[pk].owner) == owner ==>
                error.None? && db == DeleteTunnel(old(db), pk)
      ensures pk in old(db.tunnels) && old(db.tunnels[pk].owner) != owner ==>
                error == Some(TunnelNotOwned) && db == old(db)
      ensures pk !in old(db.tunnels) ==> error == Some(TunnelMissing) && db == old(db)
      ensures reply.Some? <==> tunnel.Some?
      ensures reply.Some? ==> reply.value == TunnelDict(pk, tunnel.value) && reply.value.Keys !! SecretKeys
    {
      var found := TunnelGet(db, pk, owner);
      tunnel, error := found.row, found.error;
      if error.None? {
        if tunnel.Some? {
          db := DeleteTunnel(db, pk);
        } else {
          error := Some(TunnelMissing);
        }
      }
      reply := if tunnel.Some? then Some(TunnelDict(pk, tunnel.value)) else None;
    }

    /** `HPCInfrastructure.create`: when a tunnel pk is given it must be a
        tunnel of the same owner; then a new HPC row, or the database's
        error. */
    method HpcCreate(h: Hpc, dbError: Option<string>) returns (hpc: Option<Pk>, error: Option<string>)
      requires Valid()
      modifies this`db
      ensures Valid()
      ensures h.tunnel.Some? && h.tunnel.value in old(db.tunnels) && old(db.tunnels[h.tunnel.value].owner) != h.owner ==>
                hpc.None? && error == Some(TunnelNotOwned) && db == old(db)
      ensures h.tunnel.Some? && h.tunnel.value !in old(db.tunnels) ==>
                hpc.None? && error == Some(HpcTunnelMissing) && db == old(db)
      ensures UsableTunnel(old(db), h) && dbError.None? ==>
                hpc == Some(old(db.nextId)) && error.None? && db == AddHpc(old(db), h)
      ensures UsableTunnel(old(db), h) && dbError.Some? ==> hpc.None? && error == dbError && db == old(db)
    {
      hpc, error := None, None;
      if h.tunnel.Some? {
        var found := TunnelGet(db, h.tunnel.value, h.owner);
        error := found.error;
        if error.None? && found.row.None? {
          error := Some(HpcTunnelMissing);
        }
      }
      if error.None? {
        if dbError.Some? {
          error := dbError;
        } else {
          hpc := Some(db.nextId);
          db := AddHpc(db, h);
        }
      }
    }

    /** `HPCInfrastructure.remove(pk, owner)`: only the owner's existing HPC
        row is deleted; `reply` is the dictionary form with the secrets
        stripped (see `HpcRemoveReplyAsWritten` for the form as written). */
    method HpcRemove(pk: Pk, owner: UserId) returns (hpc: Option<Hpc>, error: Option<string>, reply: HpcReply)
      requires Valid()
      modifies this`db
      ensures Valid()
      ensures hpc == HpcGet(old(db), pk, owner).row
      ensures pk in old(db.hpcs) && old(db.hpcs[pk].owner) == owner ==> error.None? && db == DeleteHpc(old(db), pk)
      ensures pk in old(db.hpcs) && old(db.hpcs[pk].owner) != owner ==> error == Some(HpcNotOwned) && db == old(db)
      ensures pk !in old(db.hpcs) ==> error == Some(HpcMissing) && db == old(db)
      ensures reply == HpcRemoveReply(old(db), pk, hpc, error)
      ensures reply.hpc.Some? ==> reply.hpc.value.Stripped? && reply.hpc.value.dict.Keys !! SecretKeys
    {
      var before := db;
      var found := HpcGet(db, pk, owner);
      hpc, error := found.row, found.error;
      if error.None? {
        if hpc.Some? {
          db := DeleteHpc(db, pk);
        } else {
          error := Some(HpcMissing);
        }
      }
      reply := HpcRemoveReply(before, pk, hpc, error);
    }

    // -------------------------------------------------------------------
    // Application

    /** `Application.create`: the blueprint is uploaded first; a row is
        stored only after a successful upload, and when the insert fails the
        uploaded blueprint is removed again. The source tests the upload
        error for truth and then reads the missing blueprint, so an upload
        failure must carry a message. */
    method AppCreate(path: string, blueprintId: string, marketplaceId: string, owner: UserId, hasScheme: bool,
                     upload: UploadOutcome, dbError: Option<string>, removeReply: Reply)
      returns (app: Option<Pk>, error: Option<string>)
      requires Valid()
      requires upload.UploadFailed? ==> upload.message != ""
      modifies this
      ensures Valid()
      ensures upload.UploadFailed? ==>
                app.None? && error == Some(upload.message) && db == old(db) &&
                engine == Upload(old(engine), path, blueprintId, hasScheme, upload).0
      ensures upload.Uploaded? && dbError.None? ==>
                app == Some(old(db.nextId)) && error.None? &&
                db == AddApp(old(db), Application(blueprintId, upload.description, marketplaceId, owner)) &&
                engine == Upload(old(engine), path, blueprintId, hasScheme, upload).0
      ensures upload.Uploaded? && dbError.Some? ==>
                app.None? && error == dbError && db == old(db) &&
                engine == RemoveBlueprint(Upload(old(engine), path, blueprintId, hasScheme, upload).0,
                                          blueprintId, removeReply).0
      ensures upload.Uploaded? && dbError.Some? && removeReply.Ok? ==>
                engine.blueprints == old(engine.blueprints) - {blueprintId}
    {
      app := None;
      var uploaded := Upload(engine, path, blueprintId, hasScheme, upload);
      var blueprint;
      engine, blueprint, error := uploaded.0, uploaded.1, uploaded.2;
      if error.None? {
        if dbError.Some? {
          error := dbError;
          var removed := RemoveBlueprint(engine, blueprint.value.id, removeReply);
          engine := removed.0;
        } else {
          app := Some(db.nextId);
          db := AddApp(db, Application(blueprint.value.id, blueprint.value.description, marketplaceId, owner));
        }
      }
    }

    /** `Application.remove(pk, owner)`: the owner's application is deleted
        locally (with its instances) only when the remote blueprint delete
        succeeded; a foreign or missing application touches nothing. */
    method AppRemove(pk: Pk, owner: UserId, reply: Reply) returns (app: Option<Application>, error: Option<string>)
      requires Valid()
      modifies this
      ensures Valid()
      ensures app == AppGet(old(db), pk, Some(owner)).row
      ensures pk in old(db.apps) && old(db.apps[pk].owner) == owner ==>
                engine == RemoveBlueprint(old(engine), old(db.apps[pk].name), reply).0 &&
                error == RemoveBlueprint(old(engine), old(db.apps[pk].name), reply).1 &&
                db == if reply.Ok? then DeleteApp(old(db), pk) else old(db)
      ensures pk in old(db.apps) && old(db.apps[pk].owner) != owner ==>
                error == Some(AppNotOwned) && db == old(db) && engine == old(engine)
      ensures pk !in old(db.apps) ==> error == Some(AppMissing) && db == old(db) && engine == old(engine)
    {
      var found := AppGet(db, pk, Some(owner));
      app, error := found.row, found.error;
      if error.None? {
        if app.Some? {
          var removed := RemoveBlueprint(engine, app.value.name, reply);
          engine, error := removed.0, removed.1;
          if error.None? {
            db := DeleteApp(db, pk);
          }
        } else {
          error := Some(AppMissing);
        }
      }
    }

    // -------------------------------------------------------------------
    // AppInstance create and remove

    /** `_create_deployment(app_id, instance_id, inputs)` as a bounded loop
        over the orchestrator's answers: one remote create per answer
        consumed, at most `DeploymentRetry.DefaultRetries + 1` of them. As
        written, the message of a first transient answer is the error
        returned, whatever the retries bring. */
    method CreateDeploymentRetrying(blueprintId: string, deploymentId: string, outcomes: seq<CreateOutcome>)
      returns (deployment: Option<Deployment>, error: Option<string>)
      requires |outcomes| > DeploymentRetry.DefaultRetries
      modifies this`engine
      ensures var a := DeploymentRetry.CreateDeploymentAsWritten(deploymentId, outcomes, DeploymentRetry.DefaultRetries);
              deployment == a.deployment && error == a.error &&
              engine == Attempts(old(engine), blueprintId, deploymentId, outcomes[..a.calls])
    {
      ghost var whole := DeploymentRetry.CreateDeploymentAsWritten(deploymentId, outcomes, DeploymentRetry.DefaultRetries);
      var retries := DeploymentRetry.DefaultRetries;
      var k := 0;
      var done := false;
      var firstError: Option<string> := None;
      deployment, error := None, None;
      assert outcomes[0..] == outcomes;
      while !done
        invariant 0 <= k <= DeploymentRetry.DefaultRetries + 1
        invariant !done ==> deployment.None? && k + retries == DeploymentRetry.DefaultRetries &&
                            (k == 0 <==> firstError.None?) && (k > 0 ==> firstError == whole.error) &&
                            var rest := DeploymentRetry.CreateDeploymentAsWritten(deploymentId, outcomes[k..], retries);
                            rest.deployment == whole.deployment && k + rest.calls == whole.calls &&
                            (k == 0 ==> rest.error == whole.error)
        invariant done ==> deployment == whole.deployment && error == whole.error && k == whole.calls
        invariant engine == Attempts(old(engine), blueprintId, deploymentId, outcomes[..k])
        decreases DeploymentRetry.DefaultRetries + 1 - k
      {
        var outcome := outcomes[k];
        assert outcomes[..k + 1][..k] == outcomes[..k];
        assert outcomes[k..][0] == outcome && outcomes[k..][1..] == outcomes[k + 1..];
        DeploymentRetry.AsWrittenStep(deploymentId, outcomes[k..], retries);
        engine := CreateAttempt(engine, blueprintId, deploymentId, outcome);
        if outcome.Created? {
          deployment, done := Some(Deployment(deploymentId, outcome.description, outcome.inputs, outcome.outputs)), true;
          error := firstError;
        } else if outcome.CreateFailed? || retries == 0 {
          error, done := if firstError.Some? then firstError else Some(outcome.message), true;
        } else {
          if firstError.None? {
            firstError := Some(outcome.message);
          }
          retries := retries - 1;
        }
        k := k + 1;
      }
    }

    /** `AppInstance.create(app_pk, deployment_id, inputs, owner)`: the
        application is looked up without an owner check, the deployment is
        created with retries, and a row is stored only when no error was
        reported; when the insert fails the deployment is destroyed again
        (without force). A deployment created by a retry comes back with an
        error, so it is neither stored nor destroyed. */
    method InstanceCreate(appPk: Pk, deploymentId: string, owner: UserId, outcomes: seq<CreateOutcome>,
                          dbError: Option<string>, destroyReply: Reply)
      returns (instance: Option<Pk>, error: Option<string>)
      requires Valid() && |outcomes| > DeploymentRetry.DefaultRetries
      modifies this
      ensures Valid()
      ensures appPk !in old(db.apps) ==>
                instance.None? && error == Some(InstanceAppMissing) && db == old(db) && engine == old(engine)
      ensures appPk in old(db.apps) ==>
                var a := DeploymentRetry.CreateDeploymentAsWritten(deploymentId, outcomes, DeploymentRetry.DefaultRetries);
                var tried := Attempts(old(engine), old(db.apps[appPk].name), deploymentId, outcomes[..a.calls]);
                (a.error.Some? ==> instance.None? && error == a.error && db == old(db) && engine == tried) &&
                (a.error.None? && dbError.None? ==>
                   instance == Some(old(db.nextId)) && error.None? && engine == tried &&
                   db == AddInstance(old(db), NewInstance(a.deployment.value, appPk, owner))) &&
                (a.error.None? && dbError.Some? ==>
                   instance.None? && error == dbError && db == old(db) &&
                   engine == DestroyDeployment(tried, deploymentId, false, destroyReply).0)
    {
      instance := None;
      var found := AppGet(db, appPk, None);
      error := found.error;
      var deployment: Option<Deployment> := None;
      if found.row.None? {
        error := Some(InstanceAppMissing);
      } else {
        deployment, error := CreateDeploymentRetrying(found.row.value.name, deploymentId, outcomes);
      }
      if error.None? {
        if dbError.Some? {
          error := dbError;
          var destroyed := DestroyDeployment(engine, deployment.value.id, false, destroyReply);
          engine := destroyed.0;
        } else {
          instance := Some(db.nextId);
          db := AddInstance(db, NewInstance(deployment.value, appPk, owner));
        }
      }
    }

    /** A pending environment and then a success, as `AppInstance.create`
        meets them: no row is stored, the pending message is the error, and
        the deployment stays on the orchestrator with no row pointing at it. */
    method InstanceCreateAfterPendingRetry(appPk: Pk, deploymentId: string, owner: UserId,
                                           dbError: Option<string>, destroyReply: Reply)
      returns (instance: Option<Pk>, error: Option<string>)
      requires Valid() && appPk in db.apps
      modifies this
      ensures Valid()
      ensures instance.None? && error == Some("pending") && db == old(db)
      ensures deploymentId in engine.deployments
      ensures |engine.calls| == |old(engine.calls)| + 2
    {
      var outcomes := [EnvironmentPending("pending"), Created(None, "{}", "{}"), CreateFailed("x"), CreateFailed("x")];
      DeploymentRetry.PendingThenCreatedLeavesDeployment(engine, db.apps[appPk].name, deploymentId);
      instance, error := InstanceCreate(appPk, deploymentId, owner, outcomes, dbError, destroyReply);
    }

    /** The retry loop with the corrected result of
        `DeploymentRetry.CreateDeployment`: a retry's own outcome is kept. */
    method CreateDeploymentRetryingCorrected(blueprintId: string, deploymentId: string, outcomes: seq<CreateOutcome>)
      returns (deployment: Option<Deployment>, error: Option<string>)
      requires |outcomes| > DeploymentRetry.DefaultRetries
      modifies this`engine
      ensures var a := DeploymentRetry.CreateDeployment(deploymentId, outcomes, DeploymentRetry.DefaultRetries);
              deployment == a.deployment && error == a.error &&
              engine == Attempts(old(engine), blueprintId, deploymentId, outcomes[..a.calls])
    {
      ghost var whole := DeploymentRetry.CreateDeployment(deploymentId, outcomes, DeploymentRetry.DefaultRetries);
      var retries := DeploymentRetry.DefaultRetries;
      var k := 0;
      var done := false;
      deployment, error := None, None;
      assert outcomes[0..] == outcomes;
      while !done
        invariant 0 <= k <= DeploymentRetry.DefaultRetries + 1
        invariant !done ==> deployment.None? && k + retries == DeploymentRetry.DefaultRetries &&
                            var rest := DeploymentRetry.CreateDeployment(deploymentId, outcomes[k..], retries);
                            rest.deployment == whole.deployment && rest.error == whole.error &&
                            k + rest.calls == whole.calls
        invariant done ==> deployment == whole.deployment && error == whole.error && k == whole.calls
        invariant engine == Attempts(old(engine), blueprintId, deploymentId, outcomes[..k])
        decreases DeploymentRetry.DefaultRetries + 1 - k
      {
        var outcome := outcomes[k];
        ghost var rest := DeploymentRetry.CreateDeployment(deploymentId, outcomes[k..], retries);
        assert outcomes[..k + 1][..k] == outcomes[..k];
        assert outcomes[k..][0] == outcome && outcomes[k..][1..] == outcomes[k + 1..];
        engine := CreateAttempt(engine, blueprintId, deploymentId, outcome);
        if outcome.Created? {
          deployment, error, done := Some(Deployment(deploymentId, outcome.description, outcome.inputs, outcome.outputs)),
                                     None, true;
          assert rest.calls == 1 && rest.deployment == deployment && rest.error == error;
        } else if outcome.CreateFailed? || retries == 0 {
          error, done := Some(outcome.message), true;
          assert rest.calls == 1 && rest.deployment == deployment && rest.error == error;
        } else {
          retries := retries - 1;
          assert rest.calls == DeploymentRetry.CreateDeployment(deploymentId, outcomes[k + 1..], retries).calls + 1;
        }
        k := k + 1;
      }
    }

    /** `AppInstance.create` on top of the corrected retry: a deployment
        created by a retry is stored like one created at once. */
    method InstanceCreateCorrected(appPk: Pk, deploymentId: string, owner: UserId, outcomes: seq<CreateOutcome>,
                          dbError: Option<string>, destroyReply: Reply)
      returns (instance: Option<Pk>, error: Option<string>)
      requires Valid() && |outcomes| > DeploymentRetry.DefaultRetries
      modifies this
      ensures Valid()
      ensures appPk !in old(db.apps) ==>
                instance.None? && error == Some(InstanceAppMissing) && db == old(db) && engine == old(engine)
      ensures appPk in old(db.apps) ==>
                var a := DeploymentRetry.CreateDeployment(deploymentId, outcomes, DeploymentRetry.DefaultRetries);
                var tried := Attempts(old(engine), old(db.apps[appPk].name), deploymentId, outcomes[..a.calls]);
                (a.error.Some? ==> instance.None? && error == a.error && db == old(db) && engine == tried) &&
                (a.error.None? && dbError.None? ==>
                   instance == Some(old(db.nextId)) && error.None? && engine == tried &&
                   db == AddInstance(old(db), NewInstance(a.deployment.value, appPk, owner))) &&
                (a.error.None? && dbError.Some? ==>
                   instance.None? && error == dbError && db == old(db) &&
                   engine == DestroyDeployment(tried, deploymentId, false, destroyReply).0)
    {
      instance := None;
      var found := AppGet(db, appPk, None);
      error := found.error;
      var deployment: Option<Deployment> := None;
      if found.row.None? {
        error := Some(InstanceAppMissing);
      } else {
        deployment, error := CreateDeploymentRetryingCorrected(found.row.value.name, deploymentId, outcomes);
      }
      if error.None? {
        if dbError.Some? {
          error := dbError;
          var destroyed := DestroyDeployment(engine, deployment.value.id, false, destroyReply);
          engine := destroyed.0;
        } else {
          instance := Some(db.nextId);
          db := AddInstance(db, NewInstance(deployment.value, appPk, owner));
        }
      }
    }

    /** `AppInstance.remove(pk, owner, force)`: the deployment of the owner's
        instance is destroyed, and the row (with its logs and executions) is
        deleted when the destroy succeeded or the instance is finished. */
    method InstanceRemove(pk: Pk, owner: UserId, force: bool, reply: Reply)
      returns (instance: Option<AppInstance>, error: Option<string>)
      requires Valid()
      modifies this
      ensures Valid()
      ensures instance == InstanceGet(old(db), pk, owner).row
      ensures pk in old(db.instances) && Owns(old(db), pk, owner) ==>
                engine == DestroyDeployment(old(engine), old(db.instances[pk].name), force, reply).0 &&
                error == DestroyDeployment(old(engine), old(db.instances[pk].name), force, reply).1 &&
                db == if reply.Ok? || IsFinished(old(db.instances[pk])) then DeleteInstance(old(db), pk) else old(db)
      ensures pk in old(db.instances) && !Owns(old(db), pk, owner) ==>
                error == Some(InstanceNotOwned) && db == old(db) && engine == old(engine)
      ensures pk !in old(db.instances) ==> error == Some(InstanceMissing) && db == old(db) && engine == old(engine)
    {
      var found := InstanceGet(db, pk, owner);
      instance, error := found.row, found.error;
      if error.None? {
        if instance.Some? {
          var destroyed := DestroyDeployment(engine, instance.value.name, force, reply);
          engine, error := destroyed.0, destroyed.1;
          if error.None? || IsFinished(instance.value) {
            db := DeleteInstance(db, pk);
          }
        } else {
          error := Some(InstanceMissing);
        }
      }
    }

    /** The log loop of `clean_up_execution`: the listed rows are deleted
        one at a time; nothing else changes. */
    method DeleteLogRows(logs: seq<InstanceLog>)
      modifies this`db
      ensures db == old(db).(logs := DropLogs(old(db.logs), IdsOf(logs)))
    {
      DropLogsMissing(db.logs, IdsOf(logs[..0]));
      for i := 0 to |logs|
        invariant db == old(db).(logs := DropLogs(old(db.logs), IdsOf(logs[..i])))
      {
        assert IdsOf(logs[..i + 1]) == IdsOf(logs[..i]) + {logs[i].id} by {
          assert logs[..i + 1] == logs[..i] + [logs[i]];
        }
        DropLogsTwice(old(db.logs), IdsOf(logs[..i]), {logs[i].id});
        db := db.(logs := DropLogs(db.logs, {logs[i].id}));
      }
      assert logs[..|logs|] == logs;
    }

    /** The execution loop of `clean_up_execution`: the listed rows are
        deleted one at a time; nothing else changes. */
    method DeleteExecutionRows(executions: set<Pk>)
      modifies this`db
      ensures db == old(db).(executions := old(db.executions) - executions)
    {
      var remaining := executions;
      while remaining != {}
        invariant remaining <= executions
        invariant db == old(db).(executions := old(db.executions) - (executions - remaining))
        decreases remaining
      {
        var e :| e in remaining;
        db := db.(executions := db.executions - {e});
        remaining := remaining - {e};
      }
    }

    /** `clean_up_execution(owner)`: the status becomes `prepared`, then every
        log the instance's listing returns is deleted, then every execution
        of the instance that belongs to the caller. The two listings never
        report an error, so their warning branches are not modelled. */
    method CleanUpExecution(pk: Pk, owner: UserId)
      requires Valid() && pk in db.instances
      modifies this`db
      ensures Valid()
      ensures db == CleanUp(old(db), pk, owner)
    {
      var wrote := UpdateStatus(pk, Prepared);
      ghost var prepared := db;
      assert OrderedLogs(prepared.logs);
      DropInstanceLogs(prepared.logs, pk);
      DeleteLogRows(LogList(db, pk, owner, 0));
      DeleteExecutionRows(ExecutionList(db, pk, owner).Keys);
      ListedExecutions(prepared, pk, owner);
      CleanUpValid(old(db), pk, owner);
    }
  }
}

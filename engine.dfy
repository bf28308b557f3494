/** The remote orchestrator as the portal sees it: the blueprints and
    deployments it holds, and the trace of every state-changing call the
    portal has made on it. Each call's answer is an oracle argument: success
    (with the data returned), or the client error's message. */
module Engine {
  import opened Wrappers

  datatype RemoteCall =
    | UploadBlueprint(path: string, blueprintId: string)
    | PublishArchive(path: string, blueprintId: string)
    | DeleteBlueprint(blueprintId: string)
    | CreateDeployment(blueprintId: string, deploymentId: string)
    | DeleteDeployment(deploymentId: string, force: bool)
    | StartExecution(deploymentId: string, workflow: string, force: bool)

  datatype Engine = Engine(blueprints: set<string>, deployments: set<string>, calls: seq<RemoteCall>)

  /** The answer to a call that returns nothing the portal uses. */
  datatype Reply = Ok | ClientError(message: string)

  datatype UploadOutcome = Uploaded(description: Option<string>) | UploadFailed(message: string)

  datatype Blueprint = Blueprint(id: string, description: Option<string>)

  /** A created deployment; `inputs` and `outputs` as serialised text. */
  datatype Deployment = Deployment(id: string, description: Option<string>, inputs: string, outputs: string)

  /** The answer to `deployments.create`: the two "environment creation"
      errors are the transient ones. */
  datatype CreateOutcome =
    | Created(description: Option<string>, inputs: string, outputs: string)
    | EnvironmentPending(message: string)
    | EnvironmentInProgress(message: string)
    | CreateFailed(message: string)

  datatype StartOutcome = ExecutionStarted(executionId: string) | StartFailed(message: string)

  predicate EndsWith(s: string, suffix: string) {
    |suffix| <= |s| && s[|s| - |suffix|..] == suffix
  }

  /** The archive test of `Application._upload_blueprint`: the path has a
      URL scheme (decided by `urlparse`, passed in) or ends in `.tar.gz`. */
  predicate IsArchive(path: string, hasScheme: bool): (r: bool)
    ensures EndsWith(path, ".tar.gz") ==> r
    ensures !hasScheme && |path| < 7 ==> !r
  {
    hasScheme || EndsWith(path, ".tar.gz")
  }

  /** `_upload_blueprint`: publish an archive or upload a local blueprint;
      on success the blueprint exists remotely under the requested id. */
  function Upload(e: Engine, path: string, blueprintId: string, hasScheme: bool, outcome: UploadOutcome)
    : (r: (Engine, Option<Blueprint>, Option<string>))
    ensures r.0.calls == e.calls + [if IsArchive(path, hasScheme) then PublishArchive(path, blueprintId)
                                    else UploadBlueprint(path, blueprintId)]
    ensures r.0.deployments == e.deployments
    ensures r.2.None? <==> outcome.Uploaded?
    ensures r.2.None? ==> r.1.Some? && r.1.value.id == blueprintId && r.0.blueprints == e.blueprints + {blueprintId}
    ensures r.2.Some? ==> r.1.None? && r.0.blueprints == e.blueprints
  {
    var call := if IsArchive(path, hasScheme) then PublishArchive(path, blueprintId)
                else UploadBlueprint(path, blueprintId);
    match outcome
    case Uploaded(description) =>
      (Engine(e.blueprints + {blueprintId}, e.deployments, e.calls + [call]),
       Some(Blueprint(blueprintId, description)), None)
    case UploadFailed(message) => (e.(calls := e.calls + [call]), None, Some(message))
  }

  /** `_remove_blueprint`. */
  function RemoveBlueprint(e: Engine, blueprintId: string, reply: Reply): (r: (Engine, Option<string>))
    ensures r.0.calls == e.calls + [DeleteBlueprint(blueprintId)] && r.0.deployments == e.deployments
    ensures r.1.None? <==> reply.Ok?
    ensures r.0.blueprints == if reply.Ok? then e.blueprints - {blueprintId} else e.blueprints
  {
    var e' := e.(calls := e.calls + [DeleteBlueprint(blueprintId)]);
    if reply.Ok? then (e'.(blueprints := e.blueprints - {blueprintId}), None) else (e', Some(reply.message))
  }

  /** `_destroy_deployment(id, force)`; `force` asks the orchestrator to
      ignore live nodes. */
  function DestroyDeployment(e: Engine, deploymentId: string, force: bool, reply: Reply): (r: (Engine, Option<string>))
    ensures r.0.calls == e.calls + [DeleteDeployment(deploymentId, force)] && r.0.blueprints == e.blueprints
    ensures r.1.None? <==> reply.Ok?
    ensures r.0.deployments == if reply.Ok? then e.deployments - {deploymentId} else e.deployments
  {
    var e' := e.(calls := e.calls + [DeleteDeployment(deploymentId, force)]);
    if reply.Ok? then (e'.(deployments := e.deployments - {deploymentId}), None) else (e', Some(reply.message))
  }

  /** One `deployments.create` call. */
  function CreateAttempt(e: Engine, blueprintId: string, deploymentId: string, outcome: CreateOutcome): (r: Engine)
    ensures r.calls == e.calls + [CreateDeployment(blueprintId, deploymentId)] && r.blueprints == e.blueprints
    ensures r.deployments == if outcome.Created? then e.deployments + {deploymentId} else e.deployments
  {
    var e' := e.(calls := e.calls + [CreateDeployment(blueprintId, deploymentId)]);
    if outcome.Created? then e'.(deployments := e.deployments + {deploymentId}) else e'
  }

  /** The engine after one `deployments.create` call per answer, in order:
      the trace grows by exactly those calls, and the deployment exists
      afterwards when one of the answers created it. */
  function Attempts(e: Engine, blueprintId: string, deploymentId: string, outcomes: seq<CreateOutcome>): (r: Engine)
    ensures |r.calls| == |e.calls| + |outcomes| && r.calls[..|e.calls|] == e.calls
    ensures forall i :: |e.calls| <= i < |r.calls| ==> r.calls[i] == CreateDeployment(blueprintId, deploymentId)
    ensures r.blueprints == e.blueprints
    ensures r.deployments == if exists i :: 0 <= i < |outcomes| && outcomes[i].Created?
                             then e.deployments + {deploymentId} else e.deployments
    decreases |outcomes|
  {
    if outcomes == [] then e
    else
      var before := outcomes[..|outcomes| - 1];
      var r := CreateAttempt(Attempts(e, blueprintId, deploymentId, before), blueprintId, deploymentId,
                             outcomes[|outcomes| - 1]);
      assert forall i :: 0 <= i < |before| ==> before[i] == outcomes[i];
      r
  }

  /** How many calls of a given kind a trace holds. */
  function CountDestroys(calls: seq<RemoteCall>, deploymentId: string): (n: nat)
    ensures n <= |calls|
  {
    if calls == [] then 0
    else (if calls[0] == DeleteDeployment(deploymentId, true) then 1 else 0) + CountDestroys(calls[1..], deploymentId)
  }

  lemma {:induction false} CountDestroysAppend(a: seq<RemoteCall>, b: seq<RemoteCall>, deploymentId: string)
    ensures CountDestroys(a + b, deploymentId) == CountDestroys(a, deploymentId) + CountDestroys(b, deploymentId)
  {
    if a == [] {
      assert a + b == b;
    } else {
      assert (a + b)[1..] == a[1..] + b;
      CountDestroysAppend(a[1..], b, deploymentId);
    }
  }
}

/** The retry policy of `AppInstance._create_deployment`: the two transient
    errors are retried, up to `retries` more times; any other client error is
    final. The functions give the result and the number of `create` calls
    made for a script of answers. */
module DeploymentRetry {
  import opened Wrappers
  import opened Engine

  /** The default `retries=3`. */
  const DefaultRetries: nat := 3

  predicate Transient(o: CreateOutcome) {
    o.EnvironmentPending? || o.EnvironmentInProgress?
  }

  datatype Attempt = Attempt(deployment: Option<Deployment>, error: Option<string>, calls: nat)

  /** The calls made were a run of transient errors followed by the last one. */
  predicate RetriedOnlyTransient(outcomes: seq<CreateOutcome>, calls: nat) {
    calls <= |outcomes| && forall i :: 0 <= i < calls - 1 ==> Transient(outcomes[i])
  }

  /** As written: after a retry, `error = str(err)` overwrites whatever the
      retry returned, so a transient first answer always yields an error,
      even when the retry created the deployment. */
  function CreateDeploymentAsWritten(deploymentId: string, outcomes: seq<CreateOutcome>, retries: nat): (r: Attempt)
    requires |outcomes| > retries
    ensures 1 <= r.calls <= retries + 1
    ensures RetriedOnlyTransient(outcomes, r.calls)
    ensures r.error.None? ==> r.deployment.Some? && r.calls == 1
    ensures r.deployment.Some? <==> outcomes[r.calls - 1].Created?
    ensures r.deployment.Some? ==> r.deployment.value.id == deploymentId
    ensures !Transient(outcomes[r.calls - 1]) || r.calls == retries + 1
    decreases retries
  {
    match outcomes[0]
    case Created(description, inputs, outputs) =>
      Attempt(Some(Deployment(deploymentId, description, inputs, outputs)), None, 1)
    case CreateFailed(message) => Attempt(None, Some(message), 1)
    case EnvironmentPending(message) =>
      if retries > 0 then
        var inner := CreateDeploymentAsWritten(deploymentId, outcomes[1..], retries - 1);
        Attempt(inner.deployment, Some(message), inner.calls + 1)
      else Attempt(None, Some(message), 1)
    case EnvironmentInProgress(message) =>
      if retries > 0 then
        var inner := CreateDeploymentAsWritten(deploymentId, outcomes[1..], retries - 1);
        Attempt(inner.deployment, Some(message), inner.calls + 1)
      else Attempt(None, Some(message), 1)
  }

  /** Corrected: a retry's own result is returned, so an error is reported
      exactly when no deployment was created. */
  function CreateDeployment(deploymentId: string, outcomes: seq<CreateOutcome>, retries: nat): (r: Attempt)
    requires |outcomes| > retries
    ensures 1 <= r.calls <= retries + 1
    ensures RetriedOnlyTransient(outcomes, r.calls)
    ensures r.error.None? <==> r.deployment.Some?
    ensures r.deployment.Some? <==> outcomes[r.calls - 1].Created?
    ensures r.deployment.Some? ==> r.deployment.value.id == deploymentId
    ensures !Transient(outcomes[r.calls - 1]) || r.calls == retries + 1
    decreases retries
  {
    match outcomes[0]
    case Created(description, inputs, outputs) =>
      Attempt(Some(Deployment(deploymentId, description, inputs, outputs)), None, 1)
    case CreateFailed(message) => Attempt(None, Some(message), 1)
    case EnvironmentPending(message) =>
      if retries > 0 then
        var inner := CreateDeployment(deploymentId, outcomes[1..], retries - 1);
        Attempt(inner.deployment, inner.error, inner.calls + 1)
      else Attempt(None, Some(message), 1)
    case EnvironmentInProgress(message) =>
      if retries > 0 then
        var inner := CreateDeployment(deploymentId, outcomes[1..], retries - 1);
        Attempt(inner.deployment, inner.error, inner.calls + 1)
      else Attempt(None, Some(message), 1)
  }

  /** One step of the policy as written, read off its first answer. */
  lemma AsWrittenStep(deploymentId: string, outcomes: seq<CreateOutcome>, retries: nat)
    requires |outcomes| > retries
    ensures var r := CreateDeploymentAsWritten(deploymentId, outcomes, retries);
            var o := outcomes[0];
            (o.Created? ==> r == Attempt(Some(Deployment(deploymentId, o.description, o.inputs, o.outputs)), None, 1)) &&
            (o.CreateFailed? || (Transient(o) && retries == 0) ==> r == Attempt(None, Some(o.message), 1)) &&
            (Transient(o) && retries > 0 ==>
               var inner := CreateDeploymentAsWritten(deploymentId, outcomes[1..], retries - 1);
               r == Attempt(inner.deployment, Some(o.message), inner.calls + 1))
  {
  }

  function Message(o: CreateOutcome): string
    requires !o.Created?
  {
    o.message
  }

  /** A run of `n` transient answers before an answer that is not transient
      costs `min(n, retries) + 1` calls; when the run outlasts the budget, the
      result is an error carrying the first transient message (the source
      reports the outermost error) and no deployment. */
  lemma {:induction false} TransientRunAsWritten(deploymentId: string, outcomes: seq<CreateOutcome>,
                                                 retries: nat, n: nat)
    requires |outcomes| > retries
    requires n <= |outcomes| && forall i :: 0 <= i < n ==> Transient(outcomes[i])
    requires n < |outcomes| ==> !Transient(outcomes[n])
    ensures var r := CreateDeploymentAsWritten(deploymentId, outcomes, retries);
            r.calls == (if n < retries then n else retries) + 1 &&
            (n > 0 ==> r.error == Some(Message(outcomes[0]))) &&
            (n > retries ==> r.deployment.None?)
    decreases retries
  {
    if n > 0 && retries > 0 {
      forall i | 0 <= i < n - 1 ensures Transient(outcomes[1..][i]) { assert outcomes[1..][i] == outcomes[i + 1]; }
      if n - 1 < |outcomes[1..]| { assert outcomes[1..][n - 1] == outcomes[n]; }
      TransientRunAsWritten(deploymentId, outcomes[1..], retries - 1, n - 1);
    }
  }

  /** The overwrite, concretely: a pending environment and then a success
      yields the created deployment together with the pending error. */
  lemma SuccessfulRetryStillReportsError()
    ensures var r := CreateDeploymentAsWritten("dep", [EnvironmentPending("pending"), Created(None, "{}", "{}"),
                                                       CreateFailed("x"), CreateFailed("x")], DefaultRetries);
            r.deployment == Some(Deployment("dep", None, "{}", "{}")) && r.error == Some("pending") && r.calls == 2
  {
    var outcomes := [EnvironmentPending("pending"), Created(None, "{}", "{}"), CreateFailed("x"), CreateFailed("x")];
    assert outcomes[1..][0] == Created(None, "{}", "{}");
  }

  /** What `AppInstance.create` is handed after a pending environment and a
      success: an error, although the deployment was created remotely by
      the second of two create calls. */
  lemma PendingThenCreatedLeavesDeployment(e: Engine, blueprintId: string, deploymentId: string)
    ensures var outcomes := [EnvironmentPending("pending"), Created(None, "{}", "{}"), CreateFailed("x"), CreateFailed("x")];
            var a := CreateDeploymentAsWritten(deploymentId, outcomes, DefaultRetries);
            var tried := Attempts(e, blueprintId, deploymentId, outcomes[..a.calls]);
            a.error == Some("pending") && a.deployment.Some? && a.calls == 2 &&
            deploymentId in tried.deployments && |tried.calls| == |e.calls| + 2
  {
    var outcomes := [EnvironmentPending("pending"), Created(None, "{}", "{}"), CreateFailed("x"), CreateFailed("x")];
    assert outcomes[1..][0] == Created(None, "{}", "{}");
    var a := CreateDeploymentAsWritten(deploymentId, outcomes, DefaultRetries);
    assert outcomes[..a.calls][1].Created?;
  }

  /** Corrected policy: a success on any retry is a success; a run of
      transient answers longer than the budget is an error. */
  lemma {:induction false} TransientRunCorrected(deploymentId: string, outcomes: seq<CreateOutcome>,
                                                 retries: nat, n: nat)
    requires |outcomes| > retries
    requires n <= |outcomes| && forall i :: 0 <= i < n ==> Transient(outcomes[i])
    requires n < |outcomes| ==> !Transient(outcomes[n])
    ensures var r := CreateDeployment(deploymentId, outcomes, retries);
            r.calls == (if n < retries then n else retries) + 1 &&
            (n <= retries && outcomes[n].Created? ==> r.error.None? && r.deployment.Some?) &&
            (n > retries ==> r.deployment.None? && r.error == Some(Message(outcomes[retries])))
    decreases retries
  {
    if n > 0 && retries > 0 {
      forall i | 0 <= i < n - 1 ensures Transient(outcomes[1..][i]) { assert outcomes[1..][i] == outcomes[i + 1]; }
      if n - 1 < |outcomes[1..]| { assert outcomes[1..][n - 1] == outcomes[n]; }
      assert outcomes[1..][retries - 1] == outcomes[retries];
      TransientRunCorrected(deploymentId, outcomes[1..], retries - 1, n - 1);
    }
  }
}

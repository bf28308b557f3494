/** The portal's local tables (the Django models of the experiments tool) and
    the read-only queries on them: `get` with its owner check, `list`, the
    secret-stripping dictionary forms, and the instance log with its offset
    paging. Rows are plain values keyed by primary key; `nextId` is the next
    primary key the database hands out. Deleting a row follows Django's
    `on_delete=CASCADE` foreign keys. */
module Records {
  import opened Wrappers
  import opened Statuses
  import opened Events

  type Pk = nat
  type UserId = nat

  datatype Tunnel = Tunnel(name: string, owner: UserId, host: string, user: string,
                           privateKey: string, privateKeyPassword: string, password: string)

  datatype Hpc = Hpc(name: string, owner: UserId, host: string, user: string,
                     privateKey: string, privateKeyPassword: string, password: string,
                     timeZone: string, manager: string, tunnel: Option<Pk>)

  datatype CatalogueKey = CatalogueKey(code: string, owner: UserId)

  datatype Application = Application(name: string, description: Option<string>,
                                     marketplaceId: string, owner: UserId)

  /** `name` is the remote deployment id; `inputs` and `outputs` are the
      serialised deployment inputs and outputs. */
  datatype AppInstance = AppInstance(name: string, app: Pk, description: Option<string>,
                                     inputs: string, outputs: string, owner: UserId, status: string)

  datatype InstanceLog = InstanceLog(id: Pk, instance: Pk, generated: string, message: string)

  datatype WorkflowExecution = WorkflowExecution(idCode: string, instance: Pk, workflow: string,
                                                 createdOn: string, owner: UserId)

  datatype Db = Db(
    tunnels: map<Pk, Tunnel>,
    hpcs: map<Pk, Hpc>,
    keys: map<Pk, CatalogueKey>,
    apps: map<Pk, Application>,
    instances: map<Pk, AppInstance>,
    logs: seq<InstanceLog>,              // in creation order
    executions: map<Pk, WorkflowExecution>,
    nextId: Pk)

  /** A `(row, error)` pair as the `get` class methods return it. */
  datatype Lookup<T> = Lookup(row: Option<T>, error: Option<string>)

  const TunnelNotOwned: string := "Tunnel does not belong to user"
  const HpcNotOwned: string := "HPC does not belong to user"
  const AppNotOwned: string := "Application does not belong to user"
  const InstanceNotOwned: string := "Application instance does not belong to user"
  const ExecutionNotOwned: string := "Instance execution does not belong to user"

  /** The errors of `create` and `remove` when the row they need is missing. */
  const TunnelMissing: string := "Can't delete tunnel because it doesn't exists"
  const HpcMissing: string := "Can't delete HPC because it doesn't exists"
  const HpcTunnelMissing: string := "Can't create HPC because tunnel doesn't exists"
  const KeyMissing: string := "Can't delete key because it doesn't exists"
  const AppMissing: string := "Can't delete aplication because it doesn't exists"
  const InstanceAppMissing: string := "Can't create instance because app doesn't exists"
  const InstanceMissing: string := "Can't delete instance because it doesn't exists"

  /** Every primary key in use is below `nextId`, log ids grow with creation
      order, and every foreign key points at an existing row. */
  ghost predicate Valid(db: Db) {
    && (forall pk :: pk in db.tunnels ==> pk < db.nextId)
    && (forall pk :: pk in db.hpcs ==> pk < db.nextId)
    && (forall pk :: pk in db.keys ==> pk < db.nextId)
    && (forall pk :: pk in db.apps ==> pk < db.nextId)
    && (forall pk :: pk in db.instances ==> pk < db.nextId)
    && (forall pk :: pk in db.executions ==> pk < db.nextId)
    && (forall i :: 0 <= i < |db.logs| ==> db.logs[i].id < db.nextId)
    && (forall i, j :: 0 <= i < j < |db.logs| ==> db.logs[i].id < db.logs[j].id)
    && (forall pk :: pk in db.hpcs && db.hpcs[pk].tunnel.Some? ==> db.hpcs[pk].tunnel.value in db.tunnels)
    && (forall pk :: pk in db.instances ==> db.instances[pk].app in db.apps)
    && (forall i :: 0 <= i < |db.logs| ==> db.logs[i].instance in db.instances)
    && (forall pk :: pk in db.executions ==> db.executions[pk].instance in db.instances)
  }

  // ---------------------------------------------------------------------
  // get / list

  /** `TunnelConnection.get`: a foreign owner gets `(None, error)`, a missing
      pk `(None, None)`. */
  function TunnelGet(db: Db, pk: Pk, owner: UserId): (r: Lookup<Tunnel>)
    ensures r.row.Some? <==> pk in db.tunnels && db.tunnels[pk].owner == owner
    ensures r.row.Some? ==> r.row.value == db.tunnels[pk]
    ensures r.error.Some? <==> pk in db.tunnels && db.tunnels[pk].owner != owner
    ensures r.error.Some? ==> r.error.value == TunnelNotOwned
  {
    if pk in db.tunnels && db.tunnels[pk].owner != owner then Lookup(None, Some(TunnelNotOwned))
    else if pk in db.tunnels then Lookup(Some(db.tunnels[pk]), None)
    else Lookup(None, None)
  }

  /** `HPCInfrastructure.get`. */
  function HpcGet(db: Db, pk: Pk, owner: UserId): (r: Lookup<Hpc>)
    ensures r.row.Some? <==> pk in db.hpcs && db.hpcs[pk].owner == owner
    ensures r.row.Some? ==> r.row.value == db.hpcs[pk]
    ensures r.error.Some? <==> pk in db.hpcs && db.hpcs[pk].owner != owner
    ensures r.error.Some? ==> r.error.value == HpcNotOwned
  {
    if pk in db.hpcs && db.hpcs[pk].owner != owner then Lookup(None, Some(HpcNotOwned))
    else if pk in db.hpcs then Lookup(Some(db.hpcs[pk]), None)
    else Lookup(None, None)
  }

  /** `Application.get`: the owner check is made only when an owner is given. */
  function AppGet(db: Db, pk: Pk, owner: Option<UserId>): (r: Lookup<Application>)
    ensures r.row.Some? <==> pk in db.apps && (owner.None? || db.apps[pk].owner == owner.value)
    ensures r.row.Some? ==> r.row.value == db.apps[pk]
    ensures r.error.Some? <==> pk in db.apps && owner.Some? && db.apps[pk].owner != owner.value
    ensures r.error.Some? ==> r.error.value == AppNotOwned
    ensures owner.None? ==> r.error.None?
  {
    if owner.Some? && pk in db.apps && db.apps[pk].owner != owner.value then Lookup(None, Some(AppNotOwned))
    else if pk in db.apps then Lookup(Some(db.apps[pk]), None)
    else Lookup(None, None)
  }

  /** `AppInstance.get`. */
  function InstanceGet(db: Db, pk: Pk, owner: UserId): (r: Lookup<AppInstance>)
    ensures r.row.Some? <==> pk in db.instances && db.instances[pk].owner == owner
    ensures r.row.Some? ==> r.row.value == db.instances[pk]
    ensures r.error.Some? <==> pk in db.instances && db.instances[pk].owner != owner
    ensures r.error.Some? ==> r.error.value == InstanceNotOwned
  {
    if pk in db.instances && db.instances[pk].owner != owner then Lookup(None, Some(InstanceNotOwned))
    else if pk in db.instances then Lookup(Some(db.instances[pk]), None)
    else Lookup(None, None)
  }

  /** `WorkflowExecution.get`. */
  function ExecutionGet(db: Db, pk: Pk, owner: UserId): (r: Lookup<WorkflowExecution>)
    ensures r.row.Some? <==> pk in db.executions && db.executions[pk].owner == owner
    ensures r.row.Some? ==> r.row.value == db.executions[pk]
    ensures r.error.Some? <==> pk in db.executions && db.executions[pk].owner != owner
    ensures r.error.Some? ==> r.error.value == ExecutionNotOwned
  {
    if pk in db.executions && db.executions[pk].owner != owner then Lookup(None, Some(ExecutionNotOwned))
    else if pk in db.executions then Lookup(Some(db.executions[pk]), None)
    else Lookup(None, None)
  }

  /** `DataCatalogueKey.get`: the owner's key, if any. The source's
      `objects.get(owner=owner)` raises when the owner has two keys, so the
      lookup requires that the owner has at most one. */
  function KeyGet(db: Db, owner: UserId): (r: Option<CatalogueKey>)
    requires forall p, q :: (p in db.keys && q in db.keys && db.keys[p].owner == owner &&
                             db.keys[q].owner == owner) ==> p == q
    ensures r.Some? <==> exists pk :: pk in db.keys && db.keys[pk].owner == owner
    ensures r.Some? ==> r.value.owner == owner && r.value in db.keys.Values
  {
    if exists pk :: pk in db.keys && db.keys[pk].owner == owner then
      var pk :| pk in db.keys && db.keys[pk].owner == owner; Some(db.keys[pk])
    else None
  }

  /** `TunnelConnection.list`: the caller's tunnels. */
  function TunnelList(db: Db, owner: UserId): (r: map<Pk, Tunnel>)
    ensures forall pk :: pk in r <==> pk in db.tunnels && db.tunnels[pk].owner == owner
    ensures forall pk :: pk in r ==> r[pk] == db.tunnels[pk]
  {
    map pk | pk in db.tunnels && db.tunnels[pk].owner == owner :: db.tunnels[pk]
  }

  /** `HPCInfrastructure.list`. */
  function HpcList(db: Db, owner: UserId): (r: map<Pk, Hpc>)
    ensures forall pk :: pk in r <==> pk in db.hpcs && db.hpcs[pk].owner == owner
    ensures forall pk :: pk in r ==> r[pk] == db.hpcs[pk]
  {
    map pk | pk in db.hpcs && db.hpcs[pk].owner == owner :: db.hpcs[pk]
  }

  /** `Application.list`: the applications of the given marketplace ids. */
  function AppList(db: Db, marketplaceIds: set<string>): (r: map<Pk, Application>)
    ensures forall pk :: pk in r <==> pk in db.apps && db.apps[pk].marketplaceId in marketplaceIds
    ensures forall pk :: pk in r ==> r[pk] == db.apps[pk]
  {
    map pk | pk in db.apps && db.apps[pk].marketplaceId in marketplaceIds :: db.apps[pk]
  }

  /** `AppInstance.list`. */
  function InstanceList(db: Db, owner: UserId): (r: map<Pk, AppInstance>)
    ensures forall pk :: pk in r <==> pk in db.instances && db.instances[pk].owner == owner
    ensures forall pk :: pk in r ==> r[pk] == db.instances[pk]
  {
    map pk | pk in db.instances && db.instances[pk].owner == owner :: db.instances[pk]
  }

  /** `WorkflowExecution.list`: the executions of one instance that belong to the caller. */
  function ExecutionList(db: Db, instance: Pk, owner: UserId): (r: map<Pk, WorkflowExecution>)
    ensures forall pk :: pk in r <==> pk in db.executions && db.executions[pk].instance == instance
                                      && db.executions[pk].owner == owner
    ensures forall pk :: pk in r ==> r[pk] == db.executions[pk]
  {
    map pk | pk in db.executions && db.executions[pk].instance == instance
                                 && db.executions[pk].owner == owner :: db.executions[pk]
  }

  // ---------------------------------------------------------------------
  // Dictionary forms (`model_to_dict` followed by the `pop` of the secrets)

  datatype Value = Text(s: string) | Number(n: int) | JsonNull
  datatype Entry = Leaf(value: Value) | Nested(fields: map<string, Value>)

  const SecretKeys: set<string> := {"private_key", "private_key_password", "password"}

  /** `model_to_dict` of a tunnel row. */
  function TunnelFields(pk: Pk, t: Tunnel): map<string, Value> {
    map["id" := Number(pk), "name" := Text(t.name), "owner" := Number(t.owner),
        "host" := Text(t.host), "user" := Text(t.user), "private_key" := Text(t.privateKey),
        "private_key_password" := Text(t.privateKeyPassword), "password" := Text(t.password)]
  }

  /** `model_to_dict` of an HPC row; the tunnel foreign key is its pk or null. */
  function HpcFields(pk: Pk, h: Hpc): map<string, Value> {
    map["id" := Number(pk), "name" := Text(h.name), "owner" := Number(h.owner),
        "host" := Text(h.host), "user" := Text(h.user), "private_key" := Text(h.privateKey),
        "private_key_password" := Text(h.privateKeyPassword), "password" := Text(h.password),
        "time_zone" := Text(h.timeZone),
        "tunnel" := (if h.tunnel.Some? then Number(h.tunnel.value) else JsonNull),
        "manager" := Text(h.manager)]
  }

  /** The three `pop` calls. */
  function StripSecrets(d: map<string, Value>): (r: map<string, Value>)
    ensures r.Keys == d.Keys - SecretKeys
    ensures forall k :: k in r ==> r[k] == d[k]
  {
    d - SecretKeys
  }

  /** A tunnel as the dictionary forms return it: no secret, every other field. */
  function TunnelDict(pk: Pk, t: Tunnel): (d: map<string, Value>)
    ensures d.Keys !! SecretKeys
    ensures d.Keys == {"id", "name", "owner", "host", "user"}
    ensures d["id"] == Number(pk) && d["host"] == Text(t.host) && d["user"] == Text(t.user)
  {
    StripSecrets(TunnelFields(pk, t))
  }

  /** An HPC as the dictionary forms return it: no secret at the top level,
      and the tunnel, when there is one, nested as a tunnel dictionary. */
  function HpcDict(db: Db, pk: Pk, h: Hpc): (d: map<string, Entry>)
    requires h.tunnel.Some? ==> h.tunnel.value in db.tunnels
    ensures d.Keys !! SecretKeys
    ensures d.Keys == {"id", "name", "owner", "host", "user", "time_zone", "tunnel", "manager"}
    ensures d["tunnel"].Nested? <==> h.tunnel.Some?
    ensures d["tunnel"].Nested? ==> d["tunnel"].fields.Keys !! SecretKeys
    ensures !d["tunnel"].Nested? ==> d["tunnel"] == Leaf(JsonNull)
  {
    var plain := StripSecrets(HpcFields(pk, h));
    var d := map k | k in plain :: Leaf(plain[k]);
    if h.tunnel.Some? then d["tunnel" := Nested(TunnelDict(h.tunnel.value, db.tunnels[h.tunnel.value]))]
    else d
  }

  /** `TunnelConnection.get(..., return_dict=True)`. */
  function TunnelGetDict(db: Db, pk: Pk, owner: UserId): (r: Lookup<map<string, Value>>)
    ensures r.row.Some? ==> r.row.value.Keys !! SecretKeys
    ensures r.row.Some? <==> TunnelGet(db, pk, owner).row.Some?
    ensures r.error == TunnelGet(db, pk, owner).error
  {
    var l := TunnelGet(db, pk, owner);
    Lookup(if l.row.Some? then Some(TunnelDict(pk, l.row.value)) else None, l.error)
  }

  /** `TunnelConnection.list(..., return_dict=True)`. */
  function TunnelListDict(db: Db, owner: UserId): (r: map<Pk, map<string, Value>>)
    ensures r.Keys == TunnelList(db, owner).Keys
    ensures forall pk :: pk in r ==> r[pk].Keys !! SecretKeys
  {
    var l := TunnelList(db, owner);
    map pk | pk in l :: TunnelDict(pk, l[pk])
  }

  /** `HPCInfrastructure.get(..., return_dict=True)`. The source reads an
      unbound `hpc_dict` when no row was returned, so only an owned row can be
      asked for in this form. */
  function HpcGetDict(db: Db, pk: Pk, owner: UserId): (d: map<string, Entry>)
    requires Valid(db)
    requires pk in db.hpcs && db.hpcs[pk].owner == owner
    ensures d.Keys !! SecretKeys
    ensures "id" in d && "tunnel" in d
    ensures d["id"] == Leaf(Number(pk))
    ensures d["tunnel"].Nested? ==> d["tunnel"].fields.Keys !! SecretKeys
  {
    HpcDict(db, pk, HpcGet(db, pk, owner).row.value)
  }

  /** `HPCInfrastructure.list(..., return_dict=True)`. */
  function HpcListDict(db: Db, owner: UserId): (r: map<Pk, map<string, Entry>>)
    requires Valid(db)
    ensures r.Keys == HpcList(db, owner).Keys
    ensures forall pk :: pk in r ==> r[pk].Keys !! SecretKeys
    ensures forall pk :: pk in r ==> "tunnel" in r[pk]
    ensures forall pk :: pk in r && r[pk]["tunnel"].Nested? ==> r[pk]["tunnel"].fields.Keys !! SecretKeys
  {
    var l := HpcList(db, owner);
    map pk | pk in l :: HpcDict(db, pk, l[pk])
  }

  /** The reply of `HPCInfrastructure.remove(..., return_dict=True)`. */
  datatype HpcPayload = RawRecord(row: Hpc) | Stripped(dict: map<string, Entry>)
  datatype HpcReply = HpcReply(hpc: Option<HpcPayload>, error: Option<string>)

  /** As written: the stripped `hpc_dict` is built and then discarded; the
      reply carries the row object itself, secrets included. */
  function HpcRemoveReplyAsWritten(pk: Pk, hpc: Option<Hpc>, error: Option<string>): (r: HpcReply)
    ensures hpc.Some? ==> r.hpc == Some(RawRecord(hpc.value))
  {
    HpcReply(if hpc.Some? then Some(RawRecord(hpc.value)) else None, error)
  }

  /** Corrected: the reply carries the stripped dictionary. */
  function HpcRemoveReply(db: Db, pk: Pk, hpc: Option<Hpc>, error: Option<string>): (r: HpcReply)
    requires hpc.Some? && hpc.value.tunnel.Some? ==> hpc.value.tunnel.value in db.tunnels
    ensures hpc.Some? <==> r.hpc.Some?
    ensures r.hpc.Some? ==> r.hpc.value.Stripped? && r.hpc.value.dict.Keys !! SecretKeys
    ensures r.error == error
  {
    HpcReply(if hpc.Some? then Some(Stripped(HpcDict(db, pk, hpc.value))) else None, error)
  }

  /** The reply as written hands out the password of the removed row. */
  lemma HpcRemoveReplyLeaksPassword()
    ensures
      var h := Hpc("cluster", 1, "h", "u", "key", "kp", "secret", "UTC", "SLURM", None);
      var r := HpcRemoveReplyAsWritten(7, Some(h), None);
      r.hpc.Some? && r.hpc.value.RawRecord? && r.hpc.value.row.password == "secret"
  {
  }

  // ---------------------------------------------------------------------
  // Inputs handed to deployments (`to_dict`), secrets included

  datatype TunnelInputs = TunnelInputs(host: string, user: string, privateKey: string,
                                       privateKeyPassword: string, password: string)
  datatype Credentials = Credentials(host: string, user: string, privateKey: string,
                                     privateKeyPassword: string, password: string,
                                     tunnel: Option<TunnelInputs>)
  datatype HpcInputs = HpcInputs(credentials: Credentials, countryTz: string, workloadManager: string)

  /** `TunnelConnection.to_dict`: the connection data, secrets included. */
  function TunnelToInputs(t: Tunnel): (r: TunnelInputs)
    ensures r.host == t.host && r.user == t.user && r.password == t.password
    ensures r.privateKey == t.privateKey && r.privateKeyPassword == t.privateKeyPassword
  {
    TunnelInputs(t.host, t.user, t.privateKey, t.privateKeyPassword, t.password)
  }

  /** `HPCInfrastructure.to_dict`: the credentials, with the tunnel's own
      credentials nested exactly when the HPC has a tunnel. */
  function HpcToInputs(db: Db, h: Hpc): (r: HpcInputs)
    requires h.tunnel.Some? ==> h.tunnel.value in db.tunnels
    ensures r.credentials.tunnel.Some? <==> h.tunnel.Some?
    ensures h.tunnel.Some? ==> r.credentials.tunnel.value == TunnelToInputs(db.tunnels[h.tunnel.value])
    ensures r.credentials.host == h.host && r.credentials.user == h.user
    ensures r.credentials.password == h.password && r.credentials.privateKey == h.privateKey
    ensures r.credentials.privateKeyPassword == h.privateKeyPassword
    ensures r.countryTz == h.timeZone && r.workloadManager == h.manager
  {
    var creds := Credentials(h.host, h.user, h.privateKey, h.privateKeyPassword, h.password, None);
    HpcInputs(if h.tunnel.Some? then creds.(tunnel := Some(TunnelToInputs(db.tunnels[h.tunnel.value])))
              else creds,
              h.timeZone, h.manager)
  }

  // ---------------------------------------------------------------------
  // The instance log

  /** The logs of one instance, in creation order. */
  function OfInstance(logs: seq<InstanceLog>, instance: Pk): (r: seq<InstanceLog>)
    ensures |r| <= |logs|
    ensures forall i :: 0 <= i < |r| ==> r[i].instance == instance && r[i] in logs
    ensures forall i :: 0 <= i < |logs| && logs[i].instance == instance ==> logs[i] in r
  {
    if logs == [] then []
    else (if logs[0].instance == instance then [logs[0]] else []) + OfInstance(logs[1..], instance)
  }

  /** `ApplicationInstanceLog.list(instance, owner, offset)`: the instance's
      logs from `offset` on; the owner argument is not consulted. */
  function LogList(db: Db, instance: Pk, owner: UserId, offset: nat): (r: seq<InstanceLog>)
    ensures var all := OfInstance(db.logs, instance);
            |r| == (if offset <= |all| then |all| - offset else 0) &&
            forall i :: 0 <= i < |r| ==> r[i] == all[offset + i]
  {
    var all := OfInstance(db.logs, instance);
    if offset <= |all| then all[offset..] else []
  }

  lemma {:induction false} OfInstanceAppend(a: seq<InstanceLog>, b: seq<InstanceLog>, instance: Pk)
    ensures OfInstance(a + b, instance) == OfInstance(a, instance) + OfInstance(b, instance)
  {
    if a == [] {
      assert a + b == b;
    } else {
      assert (a + b)[1..] == a[1..] + b;
      OfInstanceAppend(a[1..], b, instance);
    }
  }

  /** Paging by offset sees a growing log without gaps or repeats: the page
      fetched at `offset`, followed by the page fetched later from the
      returned `last` (`offset + len(page)`), is the page a single later fetch
      from `offset` returns. */
  lemma LogPagingHasNoGaps(db: Db, later: Db, instance: Pk, owner: UserId, offset: nat)
    requires db.logs <= later.logs
    requires offset <= |OfInstance(db.logs, instance)|
    ensures var page := LogList(db, instance, owner, offset);
            page + LogList(later, instance, owner, offset + |page|) == LogList(later, instance, owner, offset)
  {
    var extra := later.logs[|db.logs|..];
    assert later.logs == db.logs + extra;
    OfInstanceAppend(db.logs, extra, instance);
    var all := OfInstance(db.logs, instance);
    assert OfInstance(later.logs, instance) == all + OfInstance(extra, instance);
    assert all[offset..] + (all + OfInstance(extra, instance))[|all|..] == (all + OfInstance(extra, instance))[offset..];
  }

  /** One new log line with the next id. */
  function AddLog(db: Db, instance: Pk, generated: string, message: string): (r: Db)
    ensures r.logs == db.logs + [InstanceLog(db.nextId, instance, generated, message)]
    ensures r == db.(logs := r.logs, nextId := db.nextId + 1)
  {
    db.(logs := db.logs + [InstanceLog(db.nextId, instance, generated, message)], nextId := db.nextId + 1)
  }

  lemma AddLogValid(db: Db, instance: Pk, generated: string, message: string)
    requires Valid(db) && instance in db.instances
    ensures Valid(AddLog(db, instance, generated, message))
  {
  }

  /** The rows for a list of (timestamp, message) pairs, with consecutive ids. */
  function LogRows(instance: Pk, firstId: Pk, lines: seq<(string, string)>): (r: seq<InstanceLog>)
    ensures |r| == |lines|
    ensures forall i :: 0 <= i < |r| ==> r[i].instance == instance && r[i].id == firstId + i
                                         && r[i].generated == lines[i].0 && r[i].message == lines[i].1
  {
    seq(|lines|, i requires 0 <= i < |lines| => InstanceLog(firstId + i, instance, lines[i].0, lines[i].1))
  }

  lemma LogRowsAppend(instance: Pk, firstId: Pk, a: seq<(string, string)>, b: seq<(string, string)>)
    ensures LogRows(instance, firstId, a + b) == LogRows(instance, firstId, a) + LogRows(instance, firstId + |a|, b)
  {
    assert |LogRows(instance, firstId, a + b)| == |LogRows(instance, firstId, a) + LogRows(instance, firstId + |a|, b)|;
  }

  /** What `append_logs` does to the database: one row for every event that
      carries a timestamp, in input order. */
  function AppendLogsEffect(db: Db, instance: Pk, events: seq<Event>): (r: Db)
    requires Loggable(events)
    ensures r == db.(logs := r.logs, nextId := r.nextId)
  {
    var lines := Logged(events);
    db.(logs := db.logs + LogRows(instance, db.nextId, lines), nextId := db.nextId + |lines|)
  }

  /** The appended rows keep the tables consistent: they belong to an
      existing instance and their ids continue the log's increasing ids. */
  lemma AppendLogsValid(db: Db, instance: Pk, events: seq<Event>)
    requires Valid(db) && instance in db.instances && Loggable(events)
    ensures Valid(AppendLogsEffect(db, instance, events))
  {
    AppendRowsInOrder(db.logs, instance, db.nextId, Logged(events));
  }

  /** Rows numbered from `nextId` on extend a log whose ids are increasing
      and below `nextId`. */
  lemma AppendRowsInOrder(logs: seq<InstanceLog>, instance: Pk, nextId: Pk, lines: seq<(string, string)>)
    requires forall i :: 0 <= i < |logs| ==> logs[i].id < nextId
    requires OrderedLogs(logs)
    ensures var all := logs + LogRows(instance, nextId, lines);
            && OrderedLogs(all)
            && (forall i :: 0 <= i < |all| ==> all[i].id < nextId + |lines|)
            && (forall i :: |logs| <= i < |all| ==> all[i].instance == instance)
  {
    var rows := LogRows(instance, nextId, lines);
    var all := logs + rows;
    forall i, j | 0 <= i < j < |all| ensures all[i].id < all[j].id {
      if j >= |logs| {
        assert all[j] == rows[j - |logs|];
        if i >= |logs| { assert all[i] == rows[i - |logs|]; }
      }
    }
    forall i | 0 <= i < |all| ensures all[i].id < nextId + |lines| && (i >= |logs| ==> all[i].instance == instance) {
      if i >= |logs| { assert all[i] == rows[i - |logs|]; }
    }
  }

  /** Appending two batches one after the other appends their concatenation. */
  lemma AppendLogsTwice(db: Db, instance: Pk, a: seq<Event>, b: seq<Event>)
    requires Loggable(a) && Loggable(b)
    ensures Loggable(a + b)
    ensures AppendLogsEffect(AppendLogsEffect(db, instance, a), instance, b) == AppendLogsEffect(db, instance, a + b)
  {
    LoggedAppend(a, b);
    var first := LogRows(instance, db.nextId, Logged(a));
    var second := LogRows(instance, db.nextId + |Logged(a)|, Logged(b));
    LogRowsAppend(instance, db.nextId, Logged(a), Logged(b));
    assert (db.logs + first) + second == db.logs + (first + second);
  }

  /** One event: a row with the event's timestamp and rendered text, or
      nothing when it has no timestamp. */
  lemma AppendLogsOne(db: Db, instance: Pk, e: Event)
    requires HasTimestamp(e) ==> Renderable(e)
    ensures Loggable([e])
    ensures AppendLogsEffect(db, instance, [e]) ==
            if HasTimestamp(e) then AddLog(db, instance, e.reportedTimestamp.value, Render(e)) else db
  {
    LoggedSingle(e);
  }

  /** A whole batch adds, after the existing lines, exactly the rendered
      timestamped events. */
  lemma AppendLogsLines(db: Db, instance: Pk, events: seq<Event>)
    requires Loggable(events)
    ensures var r := AppendLogsEffect(db, instance, events);
            r.logs[..|db.logs|] == db.logs &&
            |r.logs| == |db.logs| + |Timestamped(events)| &&
            (forall i :: 0 <= i < |Timestamped(events)| ==> Renderable(Timestamped(events)[i])) &&
            forall i :: 0 <= i < |Timestamped(events)| ==>
              r.logs[|db.logs| + i].instance == instance &&
              r.logs[|db.logs| + i].generated == Timestamped(events)[i].reportedTimestamp.value &&
              r.logs[|db.logs| + i].message == Render(Timestamped(events)[i])
    ensures var r := AppendLogsEffect(db, instance, events);
            OfInstance(r.logs, instance) == OfInstance(db.logs, instance) + r.logs[|db.logs|..]
  {
    LoggedIsRenderOfTimestamped(events);
    var r := AppendLogsEffect(db, instance, events);
    var rows := LogRows(instance, db.nextId, Logged(events));
    assert r.logs == db.logs + rows;
    OfInstanceAppend(db.logs, rows, instance);
    OfInstanceAll(rows, instance);
    assert r.logs[|db.logs|..] == rows;
  }

  /** A sequence of rows all of one instance is its own selection. */
  lemma {:induction false} OfInstanceAll(logs: seq<InstanceLog>, instance: Pk)
    requires forall i :: 0 <= i < |logs| ==> logs[i].instance == instance
    ensures OfInstance(logs, instance) == logs
  {
    if logs != [] {
      OfInstanceAll(logs[1..], instance);
    }
  }

  // ---------------------------------------------------------------------
  // Row updates and deletions

  /** An instance row with its status blanked out. */
  function Unstatused(i: AppInstance): AppInstance {
    i.(status := "")
  }

  /** The instance rows apart from their status: two tables with the same
      profile differ at most in the status column. */
  function Profile(instances: map<Pk, AppInstance>): map<Pk, AppInstance> {
    map pk | pk in instances :: Unstatused(instances[pk])
  }

  function SetStatus(db: Db, instance: Pk, status: string): (r: Db)
    requires instance in db.instances
    ensures r.instances.Keys == db.instances.Keys && r.instances[instance] == db.instances[instance].(status := status)
    ensures forall pk :: pk in db.instances && pk != instance ==> r.instances[pk] == db.instances[pk]
    ensures Profile(r.instances) == Profile(db.instances)
    ensures r == db.(instances := r.instances)
  {
    var r := db.(instances := db.instances[instance := db.instances[instance].(status := status)]);
    assert Profile(r.instances) == Profile(db.instances) by {
      forall pk | pk in db.instances ensures Profile(r.instances)[pk] == Profile(db.instances)[pk] {
      }
    }
    r
  }

  lemma SetStatusValid(db: Db, instance: Pk, status: string)
    requires Valid(db) && instance in db.instances
    ensures Valid(SetStatus(db, instance, status))
  {
  }

  /** Writing the status a row already has changes nothing. */
  lemma SetStatusSame(db: Db, instance: Pk)
    requires instance in db.instances
    ensures SetStatus(db, instance, db.instances[instance].status) == db
  {
    assert db.instances[instance := db.instances[instance].(status := db.instances[instance].status)] == db.instances;
  }

  function AddExecution(db: Db, e: WorkflowExecution): (r: Db)
    ensures r.executions == db.executions[db.nextId := e]
    ensures r == db.(executions := r.executions, nextId := db.nextId + 1)
  {
    db.(executions := db.executions[db.nextId := e], nextId := db.nextId + 1)
  }

  /** The new execution row gets a key no row used before. */
  lemma AddExecutionValid(db: Db, e: WorkflowExecution)
    requires Valid(db) && e.instance in db.instances
    ensures db.nextId !in db.executions && Valid(AddExecution(db, e))
  {
  }

  /** Inserting a row: it gets the next primary key, which no row of that
      table used before. */
  function AddTunnel(db: Db, t: Tunnel): (r: Db)
    requires Valid(db)
    ensures Valid(r)
    ensures db.nextId !in db.tunnels && r.tunnels == db.tunnels[db.nextId := t]
    ensures r == db.(tunnels := r.tunnels, nextId := db.nextId + 1)
  {
    db.(tunnels := db.tunnels[db.nextId := t], nextId := db.nextId + 1)
  }

  function AddHpc(db: Db, h: Hpc): (r: Db)
    requires Valid(db) && (h.tunnel.Some? ==> h.tunnel.value in db.tunnels)
    ensures Valid(r)
    ensures db.nextId !in db.hpcs && r.hpcs == db.hpcs[db.nextId := h]
    ensures r == db.(hpcs := r.hpcs, nextId := db.nextId + 1)
  {
    db.(hpcs := db.hpcs[db.nextId := h], nextId := db.nextId + 1)
  }

  function AddKey(db: Db, k: CatalogueKey): (r: Db)
    requires Valid(db)
    ensures Valid(r)
    ensures db.nextId !in db.keys && r.keys == db.keys[db.nextId := k]
    ensures r == db.(keys := r.keys, nextId := db.nextId + 1)
  {
    db.(keys := db.keys[db.nextId := k], nextId := db.nextId + 1)
  }

  function AddApp(db: Db, a: Application): (r: Db)
    requires Valid(db)
    ensures Valid(r)
    ensures db.nextId !in db.apps && r.apps == db.apps[db.nextId := a]
    ensures r == db.(apps := r.apps, nextId := db.nextId + 1)
  {
    db.(apps := db.apps[db.nextId := a], nextId := db.nextId + 1)
  }

  function AddInstance(db: Db, i: AppInstance): (r: Db)
    requires Valid(db) && i.app in db.apps
    ensures Valid(r)
    ensures db.nextId !in db.instances && r.instances == db.instances[db.nextId := i]
    ensures r == db.(instances := r.instances, nextId := db.nextId + 1)
  {
    db.(instances := db.instances[db.nextId := i], nextId := db.nextId + 1)
  }

  /** The tunnel an HPC row names, if any, is one of its owner's tunnels. */
  predicate UsableTunnel(db: Db, h: Hpc) {
    h.tunnel.None? || (h.tunnel.value in db.tunnels && db.tunnels[h.tunnel.value].owner == h.owner)
  }

  /** An HPC row has no dependants. */
  function DeleteHpc(db: Db, pk: Pk): (r: Db)
    requires Valid(db)
    ensures Valid(r) && r.hpcs == db.hpcs - {pk} && r == db.(hpcs := r.hpcs)
  {
    db.(hpcs := db.hpcs - {pk})
  }

  function DeleteKey(db: Db, pk: Pk): (r: Db)
    requires Valid(db)
    ensures Valid(r) && r.keys == db.keys - {pk} && r == db.(keys := r.keys)
  {
    db.(keys := db.keys - {pk})
  }

  /** The logs of every instance outside `gone`. */
  function WithoutLogsOf(logs: seq<InstanceLog>, gone: set<Pk>): (r: seq<InstanceLog>)
    ensures |r| <= |logs|
    ensures forall i :: 0 <= i < |r| ==> r[i].instance !in gone && r[i] in logs
    ensures forall i :: 0 <= i < |logs| && logs[i].instance !in gone ==> logs[i] in r
  {
    if logs == [] then []
    else (if logs[0].instance !in gone then [logs[0]] else []) + WithoutLogsOf(logs[1..], gone)
  }

  /** The logs whose id is not in `ids`: what deleting those rows leaves. */
  function DropLogs(logs: seq<InstanceLog>, ids: set<Pk>): (r: seq<InstanceLog>)
    ensures |r| <= |logs|
    ensures forall i :: 0 <= i < |r| ==> r[i].id !in ids
  {
    if logs == [] then []
    else (if logs[0].id !in ids then [logs[0]] else []) + DropLogs(logs[1..], ids)
  }

  function IdsOf(logs: seq<InstanceLog>): set<Pk> {
    set l | l in logs :: l.id
  }

  /** Log ids increase along the sequence. */
  ghost predicate OrderedLogs(logs: seq<InstanceLog>) {
    forall i, j :: 0 <= i < j < |logs| ==> logs[i].id < logs[j].id
  }

  lemma {:induction false} DropLogsTwice(logs: seq<InstanceLog>, a: set<Pk>, b: set<Pk>)
    ensures DropLogs(DropLogs(logs, a), b) == DropLogs(logs, a + b)
  {
    if logs != [] {
      DropLogsTwice(logs[1..], a, b);
      var t := DropLogs(logs[1..], a);
      if logs[0].id !in a {
        assert DropLogs(logs, a) == [logs[0]] + t;
        assert ([logs[0]] + t)[1..] == t;
      } else {
        assert DropLogs(logs, a) == t;
      }
    }
  }

  lemma {:induction false} DropLogsMissing(logs: seq<InstanceLog>, ids: set<Pk>)
    requires forall i :: 0 <= i < |logs| ==> logs[i].id !in ids
    ensures DropLogs(logs, ids) == logs
  {
    if logs != [] {
      DropLogsMissing(logs[1..], ids);
    }
  }

  lemma {:induction false} DropLogsSelecting(logs: seq<InstanceLog>, ids: set<Pk>, gone: set<Pk>)
    requires forall i :: 0 <= i < |logs| ==> (logs[i].id in ids <==> logs[i].instance in gone)
    ensures DropLogs(logs, ids) == WithoutLogsOf(logs, gone)
  {
    if logs != [] {
      DropLogsSelecting(logs[1..], ids, gone);
    }
  }

  /** Deleting, one row at a time, every log that `list` returned for an
      instance removes exactly that instance's logs and keeps the others in
      order; this rests on log ids being distinct. */
  lemma DropInstanceLogs(logs: seq<InstanceLog>, instance: Pk)
    requires OrderedLogs(logs)
    ensures DropLogs(logs, IdsOf(OfInstance(logs, instance))) == WithoutLogsOf(logs, {instance})
  {
    var mine := OfInstance(logs, instance);
    forall i | 0 <= i < |logs| ensures logs[i].id in IdsOf(mine) <==> logs[i].instance in {instance} {
      if logs[i].id in IdsOf(mine) {
        var x :| x in mine && x.id == logs[i].id;
        var j :| 0 <= j < |logs| && logs[j] == x;
        assert logs[j].id == logs[i].id;
      }
      if logs[i].instance == instance {
        assert logs[i] in mine;
      }
    }
    DropLogsSelecting(logs, IdsOf(mine), {instance});
  }

  /** No log of a removed instance is left. */
  lemma {:induction false} NoLogsOfGone(logs: seq<InstanceLog>, gone: set<Pk>, instance: Pk)
    requires instance in gone
    ensures OfInstance(WithoutLogsOf(logs, gone), instance) == []
  {
    if logs != [] {
      var head := if logs[0].instance !in gone then [logs[0]] else [];
      NoLogsOfGone(logs[1..], gone, instance);
      OfInstanceAppend(head, WithoutLogsOf(logs[1..], gone), instance);
    }
  }

  /** The first row of an ordered log has the smallest id. */
  lemma HeadIdIsSmallest(logs: seq<InstanceLog>, x: InstanceLog)
    requires OrderedLogs(logs) && logs != [] && x in logs[1..]
    ensures logs[0].id < x.id
  {
    var k :| 0 <= k < |logs[1..]| && logs[1..][k] == x;
    assert logs[k + 1] == x;
  }

  lemma ConsOrdered(h: InstanceLog, rest: seq<InstanceLog>)
    requires OrderedLogs(rest)
    requires forall j :: 0 <= j < |rest| ==> h.id < rest[j].id
    ensures OrderedLogs([h] + rest)
  {
    var r := [h] + rest;
    forall i, j | 0 <= i < j < |r| ensures r[i].id < r[j].id {
      assert r[j] == rest[j - 1];
      if i > 0 { assert r[i] == rest[i - 1]; }
    }
  }

  lemma TailOrdered(logs: seq<InstanceLog>)
    requires OrderedLogs(logs) && logs != []
    ensures OrderedLogs(logs[1..])
  {
    var t := logs[1..];
    forall i, j | 0 <= i < j < |t| ensures t[i].id < t[j].id { assert t[i] == logs[i + 1] && t[j] == logs[j + 1]; }
  }

  /** Filtering keeps the ids in increasing order. */
  lemma {:induction false} WithoutLogsOfOrdered(logs: seq<InstanceLog>, gone: set<Pk>)
    requires OrderedLogs(logs)
    ensures OrderedLogs(WithoutLogsOf(logs, gone))
  {
    if logs != [] {
      var t := logs[1..];
      TailOrdered(logs);
      WithoutLogsOfOrdered(t, gone);
      var rest := WithoutLogsOf(t, gone);
      if logs[0].instance !in gone {
        forall j | 0 <= j < |rest| ensures logs[0].id < rest[j].id {
          HeadIdIsSmallest(logs, rest[j]);
        }
        ConsOrdered(logs[0], rest);
      }
    }
  }

  lemma FilteredLogsKeepInvariants(db: Db, gone: set<Pk>)
    requires Valid(db)
    ensures var logs := WithoutLogsOf(db.logs, gone);
            OrderedLogs(logs) &&
            forall i :: 0 <= i < |logs| ==> logs[i].id < db.nextId && logs[i].instance in db.instances - gone
  {
    var logs := WithoutLogsOf(db.logs, gone);
    WithoutLogsOfOrdered(db.logs, gone);
    forall i | 0 <= i < |logs| ensures logs[i].id < db.nextId && logs[i].instance in db.instances - gone {
      var k :| 0 <= k < |db.logs| && db.logs[k] == logs[i];
    }
  }

  /** Keeping an ordered part of the log and part of the executions keeps
      the invariants. */
  lemma ShrunkValid(db: Db, logs: seq<InstanceLog>, executions: map<Pk, WorkflowExecution>)
    requires Valid(db) && OrderedLogs(logs)
    requires forall i :: 0 <= i < |logs| ==> logs[i].id < db.nextId && logs[i].instance in db.instances
    requires forall e :: e in executions ==> e in db.executions && executions[e] == db.executions[e]
    ensures Valid(db.(logs := logs, executions := executions))
  {
  }

  /** Django's cascade when instance rows are deleted: their logs and
      executions go with them. */
  function DeleteInstances(db: Db, gone: set<Pk>): (r: Db)
    requires Valid(db)
    ensures Valid(r)
    ensures r.instances == db.instances - gone
    ensures r.logs == WithoutLogsOf(db.logs, gone)
    ensures forall e :: e in r.executions <==> e in db.executions && db.executions[e].instance !in gone
    ensures forall e :: e in r.executions ==> r.executions[e] == db.executions[e]
    ensures r == db.(instances := r.instances, logs := r.logs, executions := r.executions)
  {
    FilteredLogsKeepInvariants(db, gone);
    db.(instances := db.instances - gone,
        logs := WithoutLogsOf(db.logs, gone),
        executions := map e | e in db.executions && db.executions[e].instance !in gone :: db.executions[e])
  }

  function DeleteInstance(db: Db, pk: Pk): (r: Db)
    requires Valid(db)
    ensures Valid(r)
    ensures pk !in r.instances && r.instances == db.instances - {pk}
    ensures OfInstance(r.logs, pk) == [] && r.logs == WithoutLogsOf(db.logs, {pk})
    ensures forall e :: e in r.executions ==> r.executions[e].instance != pk
    ensures r == db.(instances := r.instances, logs := r.logs, executions := r.executions)
  {
    NoLogsOfGone(db.logs, {pk}, pk);
    DeleteInstances(db, {pk})
  }

  /** Deleting an application deletes its instances, and through them their
      logs and executions. */
  function DeleteApp(db: Db, pk: Pk): (r: Db)
    requires Valid(db)
    ensures Valid(r)
    ensures r.apps == db.apps - {pk}
    ensures forall i :: i in r.instances <==> i in db.instances && db.instances[i].app != pk
    ensures forall i :: i in r.instances ==> r.instances[i] == db.instances[i]
    ensures r.logs == WithoutLogsOf(db.logs, set i | i in db.instances && db.instances[i].app == pk)
    ensures forall e :: e in r.executions <==>
              e in db.executions && db.instances[db.executions[e].instance].app != pk
    ensures forall e :: e in r.executions ==> r.executions[e] == db.executions[e]
    ensures r.tunnels == db.tunnels && r.hpcs == db.hpcs && r.keys == db.keys && r.nextId == db.nextId
  {
    var gone := set i | i in db.instances && db.instances[i].app == pk;
    var d := DeleteInstances(db, gone);
    assert forall e :: e in db.executions ==> (db.executions[e].instance in gone <==> db.instances[db.executions[e].instance].app == pk);
    d.(apps := db.apps - {pk})
  }

  /** Deleting a tunnel deletes the HPC rows that use it. */
  function DeleteTunnel(db: Db, pk: Pk): (r: Db)
    requires Valid(db)
    ensures Valid(r)
    ensures r.tunnels == db.tunnels - {pk}
    ensures forall h :: h in r.hpcs <==> h in db.hpcs && db.hpcs[h].tunnel != Some(pk)
    ensures forall h :: h in r.hpcs ==> r.hpcs[h] == db.hpcs[h]
    ensures r == db.(tunnels := r.tunnels, hpcs := r.hpcs)
  {
    db.(tunnels := db.tunnels - {pk},
        hpcs := map h | h in db.hpcs && db.hpcs[h].tunnel != Some(pk) :: db.hpcs[h])
  }
}

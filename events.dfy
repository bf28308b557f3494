/** Remote orchestrator events and their translation into instance log lines
    (`AppInstance.append_logs`). An event is the dictionary the orchestrator
    reports; the keys the translation inspects are fields of `Event`, and the
    keys it only ever serialises are kept, already serialised, in `others`. */
module Events {
  import opened Wrappers

  const CloudifyEvent: string := "cloudify_event"
  const WorkflowNodeEvent: string := "workflow_node_event"
  const TaskEventTypes: set<string> := {"sending_task", "task_started", "task_succeeded", "task_failed"}
  const WorkflowMarkerTypes: set<string> :=
    {"workflow_started", "workflow_succeeded", "workflow_failed", "workflow_cancelled"}

  /** A dictionary slot: the key is missing, maps to JSON `null`, or maps to a value. */
  datatype Slot<T> = Absent | Null | Present(value: T)

  /** One entry of `error_causes`. */
  datatype Cause = Cause(kind: string, message: string, traceback: string)

  datatype Event = Event(
    reportedTimestamp: Option<string>,   // "reported_timestamp", when the key is present
    kind: string,                        // "type"
    eventType: Option<string>,           // "event_type", when the key is present
    message: Option<string>,             // "message", when the key is present
    nodeInstanceId: Slot<string>,        // "node_instance_id"
    nodeName: Slot<string>,              // "node_name"
    errorCauses: Slot<seq<Cause>>,       // "error_causes"
    others: seq<(string, string)>)       // every other key, with its value as JSON text

  predicate HasTimestamp(e: Event) {
    e.reportedTimestamp.Some?
  }

  /** Python truthiness of a string slot: present and non-empty. */
  predicate Truthy(s: Slot<string>) {
    s.Present? && s.value != ""
  }

  /** The lookups `append_logs` makes without checking the key first: a
      lifecycle event must carry `event_type` and `error_causes`, a node event
      string values for both node keys, and a task event some `node_name` slot
      (the source tests `"node_name" and event["node_name"]`, that is, only the
      value). An event failing this makes the source raise. */
  predicate Renderable(e: Event) {
    e.kind == CloudifyEvent ==>
      && e.eventType.Some?
      && !e.errorCauses.Absent?
      && (e.eventType.value == WorkflowNodeEvent ==> e.nodeInstanceId.Present? && e.nodeName.Present?)
      && (e.eventType.value in TaskEventTypes ==> !e.nodeName.Absent?)
  }

  /** Every event that will be logged can be rendered. */
  predicate Loggable(events: seq<Event>) {
    forall i :: 0 <= i < |events| && HasTimestamp(events[i]) ==> Renderable(events[i])
  }

  // ---------------------------------------------------------------------
  // Serialisation: a deterministic stand-in for `json.dumps(event)`.

  function Quote(s: string): string {
    "\"" + s + "\""
  }

  function Member(key: string, json: string): string {
    Quote(key) + ": " + json
  }

  function Join(items: seq<string>): string {
    if |items| == 0 then ""
    else if |items| == 1 then items[0]
    else items[0] + ", " + Join(items[1..])
  }

  function CauseJson(c: Cause): string {
    "{" + Join([Member("type", Quote(c.kind)), Member("message", Quote(c.message)),
                Member("traceback", Quote(c.traceback))]) + "}"
  }

  function CausesJson(causes: seq<Cause>): string {
    "[" + Join(seq(|causes|, i requires 0 <= i < |causes| => CauseJson(causes[i]))) + "]"
  }

  function TextSlotMembers(key: string, s: Slot<string>): seq<string> {
    match s
    case Absent => []
    case Null => [Member(key, "null")]
    case Present(v) => [Member(key, Quote(v))]
  }

  function OptionMembers(key: string, o: Option<string>): seq<string> {
    if o.Some? then [Member(key, Quote(o.value))] else []
  }

  function Members(e: Event): seq<string> {
    OptionMembers("reported_timestamp", e.reportedTimestamp)
    + [Member("type", Quote(e.kind))]
    + OptionMembers("event_type", e.eventType)
    + OptionMembers("message", e.message)
    + TextSlotMembers("node_instance_id", e.nodeInstanceId)
    + TextSlotMembers("node_name", e.nodeName)
    + (match e.errorCauses
       case Absent => []
       case Null => [Member("error_causes", "null")]
       case Present(cs) => [Member("error_causes", CausesJson(cs))])
    + seq(|e.others|, i requires 0 <= i < |e.others| => Member(e.others[i].0, e.others[i].1))
  }

  function Dumps(e: Event): string {
    "{" + Join(Members(e)) + "}"
  }

  /** The event after `event.pop("reported_timestamp")`. */
  function WithoutTimestamp(e: Event): Event {
    e.(reportedTimestamp := None)
  }

  // ---------------------------------------------------------------------
  // Rendering one event.

  /** The lines appended for the error causes: type, message, then the
      traceback on a tab-indented line. A null or empty list adds nothing. */
  function CausesText(causes: Slot<seq<Cause>>): string {
    if causes.Present? then CauseLines(causes.value) else ""
  }

  function CauseLines(causes: seq<Cause>): string {
    if causes == [] then ""
    else "\n" + causes[0].kind + ": " + causes[0].message + "\n\t" + causes[0].traceback
         + CauseLines(causes[1..])
  }

  /** The text part before the error causes, for a lifecycle event. */
  function LifecycleText(e: Event): string
    requires e.kind == CloudifyEvent && Renderable(e)
  {
    var message := if e.message.Some? then e.message.value else "";
    var t := e.eventType.value;
    if t == WorkflowNodeEvent then
      message + " " + e.nodeInstanceId.value + " (" + e.nodeName.value + ")"
    else if t in TaskEventTypes then
      message
      + (if Truthy(e.nodeInstanceId) then " " + e.nodeInstanceId.value else "")
      + (if Truthy(e.nodeName) then " (" + e.nodeName.value + ")" else "")
    else if t in WorkflowMarkerTypes then
      message
    else
      Dumps(WithoutTimestamp(e))
  }

  /** The log message `append_logs` builds for one event. */
  function Render(e: Event): string
    requires Renderable(e)
  {
    if e.kind == CloudifyEvent then LifecycleText(e) + CausesText(e.errorCauses)
    else Dumps(WithoutTimestamp(e))
  }

  /** Another type than `cloudify_event` is logged as the event serialised
      without its timestamp; a lifecycle event as its own text followed by
      the cause lines, which a null or empty `error_causes` leaves out. */
  lemma RenderParts(e: Event)
    requires Renderable(e)
    ensures e.kind != CloudifyEvent ==> Render(e) == Dumps(WithoutTimestamp(e))
    ensures e.kind == CloudifyEvent ==>
              LifecycleText(e) <= Render(e) && Render(e)[|LifecycleText(e)|..] == CausesText(e.errorCauses)
    ensures e.kind == CloudifyEvent && !(e.errorCauses.Present? && e.errorCauses.value != []) ==>
              Render(e) == LifecycleText(e)
  {
  }

  // ---------------------------------------------------------------------
  // A batch of events: the (timestamp, message) pairs `append_logs` records.

  function Logged(events: seq<Event>): (lines: seq<(string, string)>)
    requires Loggable(events)
    ensures |lines| <= |events|
  {
    if events == [] then []
    else
      (if HasTimestamp(events[0]) then [(events[0].reportedTimestamp.value, Render(events[0]))] else [])
      + Logged(events[1..])
  }

  /** The events that carry a timestamp, in input order. */
  function Timestamped(events: seq<Event>): (kept: seq<Event>)
    ensures |kept| <= |events|
    ensures forall i :: 0 <= i < |kept| ==> HasTimestamp(kept[i])
  {
    if events == [] then []
    else (if HasTimestamp(events[0]) then [events[0]] else []) + Timestamped(events[1..])
  }

  lemma {:induction false} LoggableAppend(a: seq<Event>, b: seq<Event>)
    ensures Loggable(a + b) <==> Loggable(a) && Loggable(b)
  {
    if Loggable(a) && Loggable(b) {
      forall i | 0 <= i < |a + b| && HasTimestamp((a + b)[i]) ensures Renderable((a + b)[i]) {
        if i < |a| { assert (a + b)[i] == a[i]; } else { assert (a + b)[i] == b[i - |a|]; }
      }
    }
    if Loggable(a + b) {
      forall i | 0 <= i < |a| && HasTimestamp(a[i]) ensures Renderable(a[i]) {
        assert (a + b)[i] == a[i];
      }
      forall i | 0 <= i < |b| && HasTimestamp(b[i]) ensures Renderable(b[i]) {
        assert (a + b)[|a| + i] == b[i];
      }
    }
  }

  /** Dropping the first event of a loggable batch keeps it loggable. */
  lemma LoggableTail(events: seq<Event>)
    requires Loggable(events) && events != []
    ensures Loggable(events[1..])
  {
    assert events == events[..1] + events[1..];
    LoggableAppend(events[..1], events[1..]);
  }

  /** Batches are logged independently and in order: the lines for `a + b`
      are the lines for `a` followed by the lines for `b`. */
  lemma {:induction false} LoggedAppend(a: seq<Event>, b: seq<Event>)
    requires Loggable(a) && Loggable(b)
    ensures Loggable(a + b)
    ensures Logged(a + b) == Logged(a) + Logged(b)
  {
    LoggableAppend(a, b);
    if a != [] {
      LoggableTail(a);
      assert (a + b)[1..] == a[1..] + b;
      LoggedAppend(a[1..], b);
    } else {
      assert a + b == b;
    }
  }

  /** One event: skipped without a timestamp, otherwise exactly one line. */
  lemma LoggedSingle(e: Event)
    requires HasTimestamp(e) ==> Renderable(e)
    ensures Loggable([e])
    ensures !HasTimestamp(e) ==> Logged([e]) == []
    ensures HasTimestamp(e) ==> Logged([e]) == [(e.reportedTimestamp.value, Render(e))]
  {
    assert [e][1..] == [];
  }

  /** Reference description of a batch: drop the events without a timestamp,
      then render each remaining event, keeping input order. */
  lemma {:induction false} LoggedIsRenderOfTimestamped(events: seq<Event>)
    requires Loggable(events)
    ensures forall i :: 0 <= i < |Timestamped(events)| ==> Renderable(Timestamped(events)[i])
    ensures |Logged(events)| == |Timestamped(events)|
    ensures forall i :: 0 <= i < |Logged(events)| ==>
              Logged(events)[i] == (Timestamped(events)[i].reportedTimestamp.value, Render(Timestamped(events)[i]))
  {
    if events != [] {
      LoggableTail(events);
      LoggedIsRenderOfTimestamped(events[1..]);
      var t := Timestamped(events[1..]);
      if HasTimestamp(events[0]) {
        assert Timestamped(events) == [events[0]] + t;
        forall i | 0 <= i < |Timestamped(events)| ensures Renderable(Timestamped(events)[i]) {
          if i > 0 { assert Timestamped(events)[i] == t[i - 1]; }
        }
      }
    }
  }

  /** The rendered text never depends on the timestamp: it is removed before
      the event is serialised and is otherwise not consulted. */
  lemma RenderIgnoresTimestamp(e: Event, t: string)
    requires Renderable(e)
    ensures Renderable(e.(reportedTimestamp := Some(t)))
    ensures Render(e.(reportedTimestamp := Some(t))) == Render(e)
  {
    assert WithoutTimestamp(e.(reportedTimestamp := Some(t))) == WithoutTimestamp(e);
  }

  /** A per-node workflow event appends the node instance id and, in
      parentheses, the node name. */
  lemma NodeEventText(e: Event)
    requires e.kind == CloudifyEvent && e.eventType == Some(WorkflowNodeEvent)
    requires e.nodeInstanceId.Present? && e.nodeName.Present? && !e.errorCauses.Absent?
    ensures Renderable(e)
    ensures Render(e) == (if e.message.Some? then e.message.value else "")
                         + " " + e.nodeInstanceId.value + " (" + e.nodeName.value + ")"
                         + CausesText(e.errorCauses)
  {
  }

  /** A workflow-level marker keeps its message unchanged before the causes. */
  lemma MarkerEventText(e: Event)
    requires e.kind == CloudifyEvent && e.eventType.Some? && e.eventType.value in WorkflowMarkerTypes
    requires !e.errorCauses.Absent?
    ensures Renderable(e)
    ensures Render(e) == (if e.message.Some? then e.message.value else "") + CausesText(e.errorCauses)
  {
  }

  /** Any event whose type is not `cloudify_event` is its serialisation
      without the timestamp; causes are not appended for it. */
  lemma OtherKindText(e: Event)
    requires e.kind != CloudifyEvent
    ensures Renderable(e)
    ensures Render(e) == Dumps(WithoutTimestamp(e))
  {
  }

  /** The `node_name` test only looks at the value: a task event with no
      `node_name` key cannot be rendered (the source raises), while a missing
      `node_instance_id` is checked for and skipped. */
  lemma TaskEventNodeKeys(e: Event)
    requires e.kind == CloudifyEvent && e.eventType.Some? && e.eventType.value in TaskEventTypes
    requires !e.errorCauses.Absent?
    ensures e.nodeName.Absent? ==> !Renderable(e)
    ensures e.nodeInstanceId.Absent? && e.nodeName.Present? && e.nodeName.value != "" ==>
              Renderable(e) &&
              Render(e) == (if e.message.Some? then e.message.value else "")
                           + " (" + e.nodeName.value + ")" + CausesText(e.errorCauses)
  {
  }

  /** Two lines, in order, for a started marker and a node event: the marker
      logs its (empty) message and the node event logs "m n1 (node1)". */
  lemma StartedThenNodeEvent()
    ensures
      var started := Event(Some("T1"), CloudifyEvent, Some("workflow_started"), None, Absent, Absent, Null, []);
      var node := Event(Some("T2"), CloudifyEvent, Some(WorkflowNodeEvent), Some("m"),
                        Present("n1"), Present("node1"), Null, []);
      Loggable([started, node]) && Logged([started, node]) == [("T1", ""), ("T2", "m n1 (node1)")]
  {
    var started := Event(Some("T1"), CloudifyEvent, Some("workflow_started"), None, Absent, Absent, Null, []);
    var node := Event(Some("T2"), CloudifyEvent, Some(WorkflowNodeEvent), Some("m"),
                      Present("n1"), Present("node1"), Null, []);
    LoggedSingle(started);
    LoggedSingle(node);
    assert [started, node] == [started] + [node];
    LoggedAppend([started], [node]);
    assert Render(started) == "";
    assert Render(node) == "m" + " " + "n1" + " (" + "node1" + ")";
    assert "m" + " " + "n1" + " (" + "node1" + ")" == "m n1 (node1)";
    assert Logged([started]) + Logged([node]) == [("T1", ""), ("T2", "m n1 (node1)")];
  }
}

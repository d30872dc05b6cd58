/**
 * The time-entry tools: how each one's parsed input becomes one client
 * call, and what it replies.
 */
module TimeEntryTools {
  import opened Wrappers
  import opened Json
  import opened Schema
  import opened Routing
  import opened Tools
  import Client

  /** The type of each member the time-entry schemas declare. */
  function TimeEntryKind(k: Key): Kind {
    match k
    case Page | PageSize => Count
    case InProgress | Billable => Flag
    case TagIds => TextList
    case _ => Text
  }

  // list_time_entries

  /** The input schema of `list_time_entries`. */
  predicate ListTimeEntriesSchema(args: Fields)
    ensures ListTimeEntriesSchema(args) ==> WorkspaceId in args && UserId in args && args[WorkspaceId].String? && args[UserId].String?
  {
    assert TimeEntryKind(WorkspaceId) == TimeEntryKind(UserId) == Text;
    && Conforms(args, Shape({WorkspaceId, UserId}, {Description, Start, End, Project, Task, Page, PageSize, InProgress}))
    && forall k {:trigger TimeEntryKind(k)} | k in args :: HasKind(args[k], TimeEntryKind(k))
  }

  /** The filters `list_time_entries` passes on under their own names. */
  const ListForwarded := {Description, Start, End, Project, Task, Page, PageSize}

  /**
   * `list_time_entries`: the ids go to the path, `inProgress` is sent as
   * `in-progress`, and the other filters are forwarded as they are.
   */
  function ListTimeEntries(args: Fields): (op: Operation)
    requires ListTimeEntriesSchema(args)
    ensures op.GetTimeEntries?
    ensures op.workspaceId == args[WorkspaceId].s && op.userId == args[UserId].s
    ensures Carries(op.params, InProgressQuery, Lookup(args, InProgress))
    ensures InProgress !in op.params && WorkspaceId !in op.params && UserId !in op.params
    ensures forall k :: k in ListForwarded ==> Carries(op.params, k, Lookup(args, k))
    ensures op.params.Keys <= ListForwarded + {InProgressQuery}
  {
    var rest := args - {WorkspaceId, UserId, InProgress};
    GetTimeEntries(args[WorkspaceId].s, args[UserId].s, With(rest, InProgressQuery, Lookup(args, InProgress)))
  }

  // get_time_entry

  /** `get_time_entry`: a GET of the entry by its two ids, with nothing else sent. */
  function GetTimeEntry(workspaceId: string, timeEntryId: string): (op: Operation)
    ensures ApiOf(op) == EntityApi && VerbOf(op) == Get
    ensures SegmentsOf(op) == ["workspaces", workspaceId, "time-entries", timeEntryId]
    ensures forall clock :: PayloadOf(op, clock) == NoPayload
  {
    Routing.GetTimeEntry(workspaceId, timeEntryId)
  }

  // create_time_entry

  /** The input schema of `create_time_entry`: `start` is the only required field. */
  predicate CreateTimeEntrySchema(args: Fields)
    ensures CreateTimeEntrySchema(args) ==> WorkspaceId in args && Start in args && args[WorkspaceId].String? && args[Start].String?
  {
    assert TimeEntryKind(WorkspaceId) == TimeEntryKind(Start) == Text;
    && Conforms(args, Shape({WorkspaceId, Start}, {End, Description, ProjectId, TaskId, TagIds, Billable}))
    && forall k {:trigger TimeEntryKind(k)} | k in args :: HasKind(args[k], TimeEntryKind(k))
  }

  /** `create_time_entry`: the body is the input without `workspaceId`. */
  function CreateTimeEntry(args: Fields): (op: Operation)
    requires CreateTimeEntrySchema(args)
    ensures op.CreateTimeEntry? && op.workspaceId == args[WorkspaceId].s
    ensures WorkspaceId !in op.data && Start in op.data
    ensures forall k :: k != WorkspaceId ==> Carries(op.data, k, Lookup(args, k))
  {
    Routing.CreateTimeEntry(args[WorkspaceId].s, args - {WorkspaceId})
  }

  // update_time_entry

  /** The input schema of `update_time_entry`: only the two ids are required. */
  predicate UpdateTimeEntrySchema(args: Fields)
    ensures UpdateTimeEntrySchema(args) ==> WorkspaceId in args && TimeEntryId in args && args[WorkspaceId].String? && args[TimeEntryId].String?
  {
    assert TimeEntryKind(WorkspaceId) == TimeEntryKind(TimeEntryId) == Text;
    && Conforms(args, Shape({WorkspaceId, TimeEntryId}, {Start, End, Description, ProjectId, TaskId, TagIds, Billable}))
    && forall k {:trigger TimeEntryKind(k)} | k in args :: HasKind(args[k], TimeEntryKind(k))
  }

  /** `update_time_entry`: both ids go to the path; the body is the rest. */
  function UpdateTimeEntry(args: Fields): (op: Operation)
    requires UpdateTimeEntrySchema(args)
    ensures op.UpdateTimeEntry?
    ensures op.workspaceId == args[WorkspaceId].s && op.timeEntryId == args[TimeEntryId].s
    ensures WorkspaceId !in op.data && TimeEntryId !in op.data
    ensures forall k :: k !in {WorkspaceId, TimeEntryId} ==> Carries(op.data, k, Lookup(args, k))
  {
    Routing.UpdateTimeEntry(args[WorkspaceId].s, args[TimeEntryId].s, args - {WorkspaceId, TimeEntryId})
  }

  /** An update that names only the two ids sends an empty body. */
  lemma UpdateWithOnlyIds(w: string, e: string)
    ensures UpdateTimeEntrySchema(map[WorkspaceId := String(w), TimeEntryId := String(e)])
    ensures UpdateTimeEntry(map[WorkspaceId := String(w), TimeEntryId := String(e)]).data == map[]
  {
  }

  // delete_time_entry

  /** `delete_time_entry`: a DELETE of the entry by its two ids, without a body. */
  function DeleteTimeEntry(workspaceId: string, timeEntryId: string): (op: Operation)
    ensures ApiOf(op) == EntityApi && VerbOf(op) == Delete
    ensures SegmentsOf(op) == ["workspaces", workspaceId, "time-entries", timeEntryId]
    ensures forall clock :: PayloadOf(op, clock) == NoPayload
  {
    Routing.DeleteTimeEntry(workspaceId, timeEntryId)
  }

  /** The reply of `delete_time_entry`: `Time entry <id> deleted successfully`. */
  function DeleteTimeEntryReply(timeEntryId: string, r: Result<(), string>): (o: Result<Reply<()>, string>)
    ensures r.Ok? ==> o == Ok(Message("Time entry " + timeEntryId + " deleted successfully"))
    ensures r.Err? ==> o == Err(r.error)
  {
    assert "Time entry" + " " + timeEntryId + DeletedSuffix == "Time entry " + timeEntryId + " deleted successfully";
    RespondDeleted("Time entry", timeEntryId, r)
  }

  // start_timer

  /** The input schema of `start_timer`: there is no `start` member. */
  predicate StartTimerSchema(args: Fields)
    ensures StartTimerSchema(args) ==> WorkspaceId in args && args[WorkspaceId].String?
  {
    assert TimeEntryKind(WorkspaceId) == Text;
    && Conforms(args, Shape({WorkspaceId}, {Description, ProjectId, TaskId, TagIds, Billable}))
    && forall k {:trigger TimeEntryKind(k)} | k in args :: HasKind(args[k], TimeEntryKind(k))
  }

  /**
   * `start_timer`: `{ start: now, ...data }`, where `now` is the local-time
   * timestamp read when the tool runs. The input has no `start` of its own,
   * so the start is always `now`.
   */
  function StartTimer(args: Fields, now: string): (op: Operation)
    requires StartTimerSchema(args)
    ensures op.StartTimer? && op.workspaceId == args[WorkspaceId].s
    ensures Start in op.data && op.data[Start] == String(now)
    ensures WorkspaceId !in op.data && End !in op.data
    ensures forall k :: k !in {WorkspaceId, Start} ==> Carries(op.data, k, Lookup(args, k))
  {
    var data := args - {WorkspaceId};
    Routing.StartTimer(args[WorkspaceId].s, map[Start := String(now)] + data)
  }

  /**
   * What reaches the service when a timer is started: a POST of a new entry
   * starting `now`, with `end` null, carrying the optional fields supplied.
   */
  lemma StartTimerRequest(args: Fields, now: string, clock: string)
    requires StartTimerSchema(args)
    ensures var rq := RequestOf(StartTimer(args, now), clock);
      rq.endpoint.verb == Post && rq.endpoint.segments == ["workspaces", args[WorkspaceId].s, "time-entries"] &&
      rq.payload.Body? && rq.payload.json[Start] == String(now) && rq.payload.json[End] == Null &&
      rq.payload.json.Keys <= {Start, End, Description, ProjectId, TaskId, TagIds, Billable} &&
      forall k :: k !in {WorkspaceId, Start, End} ==> Carries(rq.payload.json, k, Lookup(args, k))
  {
    var op := StartTimer(args, now);
    StartTimerBody(op.workspaceId, op.data, clock);
  }

  // stop_timer

  /** `stop_timer`: only the two ids are forwarded. */
  function StopTimer(workspaceId: string, userId: string): (op: Operation)
    ensures op.StopTimer? && op.workspaceId == workspaceId && op.userId == userId
  {
    Routing.StopTimer(workspaceId, userId)
  }

  /**
   * What reaches the service when the timer is stopped: a PATCH of the user's
   * entries whose body holds only `end`, the time read by the client.
   */
  lemma StopTimerRequest(workspaceId: string, userId: string, clock: string)
    ensures var rq := RequestOf(StopTimer(workspaceId, userId), clock);
      rq.endpoint.verb == Patch && rq.endpoint.segments == ["workspaces", workspaceId, "user", userId, "time-entries"] &&
      rq.payload == Body(map[End := String(clock)])
  {
  }

  // get_running_timer

  const NoRunningTimer := "No running timer found"

  /**
   * `get_running_timer`: the entry the client found, serialized, or the
   * sentence `No running timer found`; a client error is passed on.
   */
  function RunningTimerReply<E>(r: Result<Option<E>, string>): (o: Result<Reply<E>, string>)
    ensures o.Err? <==> r.Err?
    ensures r.Err? ==> o.error == r.error
    ensures r.Ok? && r.value.Some? ==> o.value == Serialized(r.value.value)
    ensures r.Ok? && r.value.None? ==> o.value == Message(NoRunningTimer)
  {
    match r
    case Err(e) => Err(e)
    case Ok(Some(entry)) => Ok(Serialized(entry))
    case Ok(None) => Ok(Message("No running timer found"))
  }

  /**
   * The whole tool over the listing's reply: an empty listing is the sentence,
   * not an error; otherwise the first in-progress entry, unmodified.
   */
  lemma RunningTimerTool<E>(workspaceId: string, userId: string, entries: seq<E>)
    ensures var o := RunningTimerReply(Client.GetRunningTimer(workspaceId, userId, Ok(entries)).result);
      o.Ok? && (entries == [] ==> o.value == Message(NoRunningTimer)) &&
      (entries != [] ==> o.value == Serialized(entries[0]))
  {
  }
}

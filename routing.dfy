/**
 * The request each client method issues: which of the two APIs, which HTTP
 * verb, which path under the API's base URL, and what it sends as query
 * parameters or as a JSON body.
 */
module Routing {
  import opened Json

  datatype Api = EntityApi | ReportsApi

  datatype Verb = Get | Post | Put | Patch | Delete

  /** One constructor per client method, carrying its arguments. */
  datatype Operation =
    | GetCurrentUser
    | GetUser(workspaceId: string, userId: string)
    | GetWorkspaceUsers(workspaceId: string, params: Fields)
    | GetWorkspaces
    | GetWorkspace(workspaceId: string)
    | GetProjects(workspaceId: string, params: Fields)
    | GetProject(workspaceId: string, projectId: string)
    | CreateProject(workspaceId: string, data: Fields)
    | UpdateProject(workspaceId: string, projectId: string, data: Fields)
    | DeleteProject(workspaceId: string, projectId: string)
    | AddProjectMember(workspaceId: string, projectId: string, data: Fields)
    | GetTasks(workspaceId: string, projectId: string, params: Fields)
    | GetTask(workspaceId: string, projectId: string, taskId: string)
    | CreateTask(workspaceId: string, projectId: string, data: Fields)
    | UpdateTask(workspaceId: string, projectId: string, taskId: string, data: Fields)
    | DeleteTask(workspaceId: string, projectId: string, taskId: string)
    | GetClients(workspaceId: string, params: Fields)
    | GetClient(workspaceId: string, clientId: string)
    | CreateClient(workspaceId: string, data: Fields)
    | DeleteClient(workspaceId: string, clientId: string)
    | GetTags(workspaceId: string, params: Fields)
    | GetTag(workspaceId: string, tagId: string)
    | CreateTag(workspaceId: string, data: Fields)
    | DeleteTag(workspaceId: string, tagId: string)
    | GetTimeEntries(workspaceId: string, userId: string, params: Fields)
    | GetTimeEntry(workspaceId: string, timeEntryId: string)
    | CreateTimeEntry(workspaceId: string, data: Fields)
    | UpdateTimeEntry(workspaceId: string, timeEntryId: string, data: Fields)
    | DeleteTimeEntry(workspaceId: string, timeEntryId: string)
    | StartTimer(workspaceId: string, data: Fields)
    | StopTimer(workspaceId: string, userId: string)
    | GetDetailedReport(workspaceId: string, data: Fields)
    | GetSummaryReport(workspaceId: string, data: Fields)
    | GetWeeklyReport(workspaceId: string, data: Fields)
    | GetSharedReports(workspaceId: string)

  /** The four methods that go through the reports client. */
  predicate IsReport(op: Operation) {
    op.GetDetailedReport? || op.GetSummaryReport? || op.GetWeeklyReport? || op.GetSharedReports?
  }

  /** The two methods that are not scoped to a workspace. */
  predicate IsGlobal(op: Operation) {
    op.GetCurrentUser? || op.GetWorkspaces?
  }

  predicate IsTaskOperation(op: Operation) {
    op.GetTasks? || op.GetTask? || op.CreateTask? || op.UpdateTask? || op.DeleteTask?
  }

  predicate IsDeletion(op: Operation) {
    op.DeleteProject? || op.DeleteTask? || op.DeleteClient? || op.DeleteTag? || op.DeleteTimeEntry?
  }

  predicate IsUpdate(op: Operation) {
    op.UpdateProject? || op.UpdateTask? || op.UpdateTimeEntry?
  }

  /** The methods that create something: the four creations, adding a member and starting a timer. */
  predicate IsCreation(op: Operation) {
    op.CreateProject? || op.AddProjectMember? || op.CreateTask? || op.CreateClient? ||
    op.CreateTag? || op.CreateTimeEntry? || op.StartTimer?
  }

  /** A request target: the API, the verb and the path as its `/`-separated segments. */
  datatype Endpoint = Endpoint(api: Api, verb: Verb, segments: seq<string>)

  /** The client each method goes through: the reports client for the four report methods. */
  function ApiOf(op: Operation): (api: Api)
    ensures api == ReportsApi <==> IsReport(op)
  {
    if IsReport(op) then ReportsApi else EntityApi
  }

  /**
   * The HTTP verb each client method uses: deletions use DELETE, updates PUT,
   * only stopping the timer uses PATCH, the creations and the report methods
   * POST (except the shared-reports listing), and every other method reads
   * with GET.
   */
  function VerbOf(op: Operation): (v: Verb)
    ensures v == Delete <==> IsDeletion(op)
    ensures v == Put <==> IsUpdate(op)
    ensures v == Patch <==> op.StopTimer?
    ensures IsReport(op) ==> v == (if op.GetSharedReports? then Get else Post)
  {
    match op
    case GetCurrentUser => Get
    case GetUser(_, _) => Get
    case GetWorkspaceUsers(_, _) => Get
    case GetWorkspaces => Get
    case GetWorkspace(_) => Get
    case GetProjects(_, _) => Get
    case GetProject(_, _) => Get
    case CreateProject(_, _) => Post
    case UpdateProject(_, _, _) => Put
    case DeleteProject(_, _) => Delete
    case AddProjectMember(_, _, _) => Post
    case GetTasks(_, _, _) => Get
    case GetTask(_, _, _) => Get
    case CreateTask(_, _, _) => Post
    case UpdateTask(_, _, _, _) => Put
    case DeleteTask(_, _, _) => Delete
    case GetClients(_, _) => Get
    case GetClient(_, _) => Get
    case CreateClient(_, _) => Post
    case DeleteClient(_, _) => Delete
    case GetTags(_, _) => Get
    case GetTag(_, _) => Get
    case CreateTag(_, _) => Post
    case DeleteTag(_, _) => Delete
    case GetTimeEntries(_, _, _) => Get
    case GetTimeEntry(_, _) => Get
    case CreateTimeEntry(_, _) => Post
    case UpdateTimeEntry(_, _, _) => Put
    case DeleteTimeEntry(_, _) => Delete
    case StartTimer(_, _) => Post
    case StopTimer(_, _) => Patch
    case GetDetailedReport(_, _) => Post
    case GetSummaryReport(_, _) => Post
    case GetWeeklyReport(_, _) => Post
    case GetSharedReports(_) => Get
  }

  /**
   * POST is used exactly by the creations and the three reports that send
   * their filters; with the clauses of `VerbOf`, every remaining method is a GET.
   */
  lemma PostsExactlyCreations(op: Operation)
    ensures VerbOf(op) == Post <==> IsCreation(op) || (IsReport(op) && !op.GetSharedReports?)
  {
  }

  /** A path under `workspaces/{workspaceId}`. */
  function Scoped(workspaceId: string, rest: seq<string>): (segs: seq<string>)
    ensures |segs| == 2 + |rest| && segs[..2] == ["workspaces", workspaceId] && segs[2..] == rest
  {
    ["workspaces", workspaceId] + rest
  }

  /**
   * The path each client method requests, as its segments; ids are
   * interpolated as they are. Every method but the two global ones works
   * under `workspaces/{workspaceId}`.
   */
  function SegmentsOf(op: Operation): (segs: seq<string>)
    ensures op.GetCurrentUser? ==> segs == ["user"]
    ensures op.GetWorkspaces? ==> segs == ["workspaces"]
    ensures !IsGlobal(op) ==> |segs| >= 2 && segs[..2] == ["workspaces", op.workspaceId]
  {
    match op
    case GetCurrentUser => ["user"]
    case GetWorkspaces => ["workspaces"]
    case _ => Scoped(op.workspaceId, Below(op))
  }

  /** What follows `workspaces/{workspaceId}` in the path of a workspace-scoped method. */
  function Below(op: Operation): seq<string>
    requires !IsGlobal(op)
  {
    match op
    case GetCurrentUser => []
    case GetWorkspaces => []
    case GetUser(_, u) => ["users", u]
    case GetWorkspaceUsers(_, _) => ["users"]
    case GetWorkspace(_) => []
    case GetProjects(_, _) => ["projects"]
    case GetProject(_, p) => ["projects", p]
    case CreateProject(_, _) => ["projects"]
    case UpdateProject(_, p, _) => ["projects", p]
    case DeleteProject(_, p) => ["projects", p]
    case AddProjectMember(_, p, _) => ["projects", p, "memberships"]
    case GetTasks(_, p, _) => ["projects", p, "tasks"]
    case GetTask(_, p, t) => ["projects", p, "tasks", t]
    case CreateTask(_, p, _) => ["projects", p, "tasks"]
    case UpdateTask(_, p, t, _) => ["projects", p, "tasks", t]
    case DeleteTask(_, p, t) => ["projects", p, "tasks", t]
    case GetClients(_, _) => ["clients"]
    case GetClient(_, c) => ["clients", c]
    case CreateClient(_, _) => ["clients"]
    case DeleteClient(_, c) => ["clients", c]
    case GetTags(_, _) => ["tags"]
    case GetTag(_, t) => ["tags", t]
    case CreateTag(_, _) => ["tags"]
    case DeleteTag(_, t) => ["tags", t]
    case GetTimeEntries(_, u, _) => ["user", u, "time-entries"]
    case GetTimeEntry(_, e) => ["time-entries", e]
    case CreateTimeEntry(_, _) => ["time-entries"]
    case UpdateTimeEntry(_, e, _) => ["time-entries", e]
    case DeleteTimeEntry(_, e) => ["time-entries", e]
    case StartTimer(_, _) => ["time-entries"]
    case StopTimer(_, u) => ["user", u, "time-entries"]
    case GetDetailedReport(_, _) => ["reports", "detailed"]
    case GetSummaryReport(_, _) => ["reports", "summary"]
    case GetWeeklyReport(_, _) => ["reports", "weekly"]
    case GetSharedReports(_) => ["shared-reports"]
  }


  /** The API, verb and path each client method uses. */
  function EndpointOf(op: Operation): (e: Endpoint)
    ensures e.api == ReportsApi <==> IsReport(op)
    ensures e.api == ReportsApi ==>
      (e.verb == Get || e.verb == Post) && |e.segments| >= 2 && e.segments[..2] == ["workspaces", op.workspaceId]
  {
    Endpoint(ApiOf(op), VerbOf(op), SegmentsOf(op))
  }

  /** Task paths nest under their project: `workspaces/{w}/projects/{p}/tasks[/{t}]`. */
  lemma TaskSegments(op: Operation)
    requires IsTaskOperation(op)
    ensures var segs := SegmentsOf(op);
      |segs| >= 5 && segs[..5] == ["workspaces", op.workspaceId, "projects", op.projectId, "tasks"] &&
      (if op.GetTasks? || op.CreateTask? then |segs| == 5 else |segs| == 6 && segs[5] == op.taskId)
  {
  }

  /** The path string: each segment preceded by a slash, ids interpolated as they are. */
  function JoinPath(segments: seq<string>): (p: string)
    ensures segments != [] ==> |p| > 0 && p[0] == '/'
    ensures segments == [] ==> p == ""
  {
    if segments == [] then "" else "/" + segments[0] + JoinPath(segments[1..])
  }

  /** The path the client passes to axios: always absolute, under the API's base URL. */
  function Path(op: Operation): (p: string)
    ensures |p| > 0 && p[0] == '/'
  {
    JoinPath(SegmentsOf(op))
  }

  /** The index of the first slash in `s`, or its length when there is none. */
  function FirstSlash(s: string): (i: nat)
    ensures i <= |s|
    ensures forall j :: 0 <= j < i ==> s[j] != '/'
    ensures i < |s| ==> s[i] == '/'
  {
    if s == [] || s[0] == '/' then 0 else 1 + FirstSlash(s[1..])
  }

  /** Splits a path back into its segments. */
  function SplitPath(p: string): seq<string>
    decreases |p|
  {
    if p == [] || p[0] != '/' then []
    else
      var rest := p[1..];
      var i := FirstSlash(rest);
      [rest[..i]] + SplitPath(rest[i..])
  }

  predicate NoSlash(s: string) {
    forall j :: 0 <= j < |s| ==> s[j] != '/'
  }

  lemma {:induction false} FirstSlashAfter(s: string, t: string)
    requires NoSlash(s)
    requires t == [] || t[0] == '/'
    ensures FirstSlash(s + t) == |s|
  {
    if s == [] {
      assert s + t == t;
    } else {
      assert (s + t)[1..] == s[1..] + t;
      FirstSlashAfter(s[1..], t);
    }
  }

  /** Joining segments that hold no slash and splitting again gives the segments back. */
  lemma {:induction false} SplitJoin(segments: seq<string>)
    requires forall k :: 0 <= k < |segments| ==> NoSlash(segments[k])
    ensures SplitPath(JoinPath(segments)) == segments
  {
    if segments != [] {
      var s, tail := segments[0], JoinPath(segments[1..]);
      var p := "/" + s + tail;
      assert p[1..] == s + tail;
      FirstSlashAfter(s, tail);
      assert (s + tail)[..|s|] == s;
      assert (s + tail)[|s|..] == tail;
      SplitJoin(segments[1..]);
    }
  }

  /**
   * When the ids themselves hold no slash, the path of a task method splits into
   * `workspaces/{w}/projects/{p}/tasks[/{t}]`, with the ids in their places.
   */
  lemma TaskPathNests(op: Operation)
    requires IsTaskOperation(op)
    requires NoSlash(op.workspaceId) && NoSlash(op.projectId)
    requires (op.GetTask? || op.UpdateTask? || op.DeleteTask?) ==> NoSlash(op.taskId)
    ensures var segs := SplitPath(Path(op));
      |segs| >= 5 && segs[..5] == ["workspaces", op.workspaceId, "projects", op.projectId, "tasks"] &&
      (if op.GetTasks? || op.CreateTask? then |segs| == 5 else |segs| == 6 && segs[5] == op.taskId)
  {
    var segs := SegmentsOf(op);
    TaskSegments(op);
    assert forall k :: 0 <= k < |segs| ==> NoSlash(segs[k]);
    SplitJoin(segs);
  }

  /** What a request carries besides its target. */
  datatype Payload = NoPayload | Query(params: Fields) | Body(json: Fields)

  /**
   * The query or body each method sends. `clock` is the time `stopTimer`
   * reads when it builds its body; no other method uses it.
   */
  function PayloadOf(op: Operation, clock: string): (p: Payload)
    ensures IsDeletion(op) ==> p == NoPayload
    ensures op.StopTimer? ==> p == Body(map[End := String(clock)])
  {
    match op
    case GetWorkspaceUsers(_, q) => Query(q)
    case GetProjects(_, q) => Query(q)
    case GetTasks(_, _, q) => Query(q)
    case GetClients(_, q) => Query(q)
    case GetTags(_, q) => Query(q)
    case GetTimeEntries(_, _, q) => Query(q)
    case CreateProject(_, d) => Body(d)
    case UpdateProject(_, _, d) => Body(d)
    case AddProjectMember(_, _, d) => Body(d)
    case CreateTask(_, _, d) => Body(d)
    case UpdateTask(_, _, _, d) => Body(d)
    case CreateClient(_, d) => Body(d)
    case CreateTag(_, d) => Body(d)
    case CreateTimeEntry(_, d) => Body(d)
    case UpdateTimeEntry(_, _, d) => Body(d)
    case StartTimer(_, d) => Body(d[End := Null])
    case StopTimer(_, _) => Body(map[End := String(clock)])
    case GetDetailedReport(_, d) => Body(d)
    case GetSummaryReport(_, d) => Body(d)
    case GetWeeklyReport(_, d) => Body(d)
    case _ => NoPayload
  }

  /** A GET never carries a body, and only a GET carries query parameters. */
  lemma PayloadFollowsVerb(op: Operation, clock: string)
    ensures VerbOf(op) == Get ==> !PayloadOf(op, clock).Body?
    ensures VerbOf(op) != Get ==> !PayloadOf(op, clock).Query?
  {
  }

  /** `startTimer` posts the caller's data with `end` forced to null, whatever `end` it held. */
  lemma StartTimerBody(workspaceId: string, data: Fields, clock: string)
    ensures var p := PayloadOf(StartTimer(workspaceId, data), clock);
      p.Body? && End in p.json && p.json[End] == Null && p.json.Keys == data.Keys + {End} &&
      forall k :: k in data && k != End ==> k in p.json && p.json[k] == data[k]
  {
  }

  datatype Request = Request(endpoint: Endpoint, payload: Payload)

  /** The whole request a client method issues. */
  function RequestOf(op: Operation, clock: string): (r: Request)
    ensures r.endpoint.verb == Get ==> !r.payload.Body?
    ensures r.endpoint.verb != Get ==> !r.payload.Query?
    ensures IsDeletion(op) ==> r.endpoint.verb == Delete && r.payload == NoPayload
  {
    PayloadFollowsVerb(op, clock);
    Request(EndpointOf(op), PayloadOf(op, clock))
  }
}

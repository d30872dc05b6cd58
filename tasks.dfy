/**
 * The task tools: tasks live under a project, so every call names the
 * workspace and the project, and the list filter `isActive` is sent as
 * `is-active`.
 */
module TaskTools {
  import opened Wrappers
  import opened Json
  import opened Schema
  import opened Routing
  import opened Tools

  const TaskStatuses := {"ACTIVE", "DONE"}

  /** The type of each member the task schemas declare. */
  function TaskKind(k: Key): Kind {
    match k
    case Page | PageSize => Count
    case IsActive | Billable => Flag
    case AssigneeIds => TextList
    case Status => OneOf(TaskStatuses)
    case HourlyRate => RateObject
    case _ => Text
  }

  // list_tasks

  predicate ListTasksSchema(args: Fields)
    ensures ListTasksSchema(args) ==> WorkspaceId in args && ProjectId in args && args[WorkspaceId].String? && args[ProjectId].String?
  {
    assert TaskKind(WorkspaceId) == TaskKind(ProjectId) == Text;
    && Conforms(args, Shape({WorkspaceId, ProjectId}, {IsActive, Name, Page, PageSize}))
    && forall k {:trigger TaskKind(k)} | k in args :: HasKind(args[k], TaskKind(k))
  }

  /**
   * `list_tasks`: both ids go to the path, `isActive` is sent as `is-active`,
   * and `name`, `page` and `pageSize` are forwarded as they are.
   */
  function ListTasks(args: Fields): (op: Operation)
    requires ListTasksSchema(args)
    ensures op.GetTasks?
    ensures op.workspaceId == args[WorkspaceId].s && op.projectId == args[ProjectId].s
    ensures Carries(op.params, IsActiveQuery, Lookup(args, IsActive))
    ensures IsActive !in op.params && WorkspaceId !in op.params && ProjectId !in op.params
    ensures forall k :: k in {Name, Page, PageSize} ==> Carries(op.params, k, Lookup(args, k))
    ensures op.params.Keys <= {Name, Page, PageSize, IsActiveQuery}
  {
    var params := args - {WorkspaceId, ProjectId, IsActive};
    GetTasks(args[WorkspaceId].s, args[ProjectId].s, With(params, IsActiveQuery, Lookup(args, IsActive)))
  }

  // get_task

  /** `get_task`: a GET of the task by its three ids, with nothing else sent. */
  function GetTask(workspaceId: string, projectId: string, taskId: string): (op: Operation)
    ensures ApiOf(op) == EntityApi && VerbOf(op) == Get
    ensures SegmentsOf(op) == ["workspaces", workspaceId, "projects", projectId, "tasks", taskId]
    ensures forall clock :: PayloadOf(op, clock) == NoPayload
  {
    Routing.GetTask(workspaceId, projectId, taskId)
  }

  // create_task

  /** The input schema of `create_task`: `name` is required, `status` is `ACTIVE` or `DONE`. */
  predicate CreateTaskSchema(args: Fields)
    ensures CreateTaskSchema(args) ==> WorkspaceId in args && ProjectId in args && Name in args && args[WorkspaceId].String? && args[ProjectId].String? && args[Name].String?
  {
    assert TaskKind(WorkspaceId) == TaskKind(ProjectId) == TaskKind(Name) == Text;
    && Conforms(args, Shape({WorkspaceId, ProjectId, Name}, {AssigneeIds, Estimate, Status, Billable, HourlyRate}))
    && forall k {:trigger TaskKind(k)} | k in args :: HasKind(args[k], TaskKind(k))
  }

  /** `create_task`: the ids go to the path and the body is the rest of the input. */
  function CreateTask(args: Fields): (op: Operation)
    requires CreateTaskSchema(args)
    ensures op.CreateTask?
    ensures op.workspaceId == args[WorkspaceId].s && op.projectId == args[ProjectId].s
    ensures WorkspaceId !in op.data && ProjectId !in op.data && Name in op.data
    ensures forall k :: k !in {WorkspaceId, ProjectId} ==> Carries(op.data, k, Lookup(args, k))
  {
    Routing.CreateTask(args[WorkspaceId].s, args[ProjectId].s, args - {WorkspaceId, ProjectId})
  }

  // update_task

  /** The input schema of `update_task`: only the three ids are required. */
  predicate UpdateTaskSchema(args: Fields)
    ensures UpdateTaskSchema(args) ==> WorkspaceId in args && ProjectId in args && TaskId in args && args[WorkspaceId].String? && args[ProjectId].String? && args[TaskId].String?
  {
    assert TaskKind(WorkspaceId) == TaskKind(ProjectId) == TaskKind(TaskId) == Text;
    && Conforms(args, Shape({WorkspaceId, ProjectId, TaskId}, {Name, AssigneeIds, Estimate, Status, Billable, HourlyRate}))
    && forall k {:trigger TaskKind(k)} | k in args :: HasKind(args[k], TaskKind(k))
  }

  /** `update_task`: the three ids go to the path and the body is the rest of the input. */
  function UpdateTask(args: Fields): (op: Operation)
    requires UpdateTaskSchema(args)
    ensures op.UpdateTask?
    ensures op.workspaceId == args[WorkspaceId].s && op.projectId == args[ProjectId].s
    ensures op.taskId == args[TaskId].s
    ensures WorkspaceId !in op.data && ProjectId !in op.data && TaskId !in op.data
    ensures forall k :: k !in {WorkspaceId, ProjectId, TaskId} ==> Carries(op.data, k, Lookup(args, k))
  {
    Routing.UpdateTask(args[WorkspaceId].s, args[ProjectId].s, args[TaskId].s, args - {WorkspaceId, ProjectId, TaskId})
  }

  // delete_task

  /** `delete_task`: a DELETE of the task by its three ids, without a body. */
  function DeleteTask(workspaceId: string, projectId: string, taskId: string): (op: Operation)
    ensures ApiOf(op) == EntityApi && VerbOf(op) == Delete
    ensures SegmentsOf(op) == ["workspaces", workspaceId, "projects", projectId, "tasks", taskId]
    ensures forall clock :: PayloadOf(op, clock) == NoPayload
  {
    Routing.DeleteTask(workspaceId, projectId, taskId)
  }

  /** The reply of `delete_task`: `Task <taskId> deleted successfully`. */
  function DeleteTaskReply(taskId: string, r: Result<(), string>): (o: Result<Reply<()>, string>)
    ensures r.Ok? ==> o == Ok(Message("Task " + taskId + " deleted successfully"))
    ensures r.Err? ==> o == Err(r.error)
  {
    assert "Task" + " " + taskId + DeletedSuffix == "Task " + taskId + " deleted successfully";
    RespondDeleted("Task", taskId, r)
  }
}

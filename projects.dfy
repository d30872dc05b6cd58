/**
 * The project tools: the workspace id (and the project id where there is
 * one) go to the path, and the rest of the input is the query or the body.
 */
module ProjectTools {
  import opened Wrappers
  import opened Json
  import opened Schema
  import opened Routing
  import opened Tools

  const MembershipTypes := {"PROJECT", "MANAGER"}
  const MembershipStatuses := {"ACTIVE", "INACTIVE"}

  /** The type of each member the project schemas declare. */
  function ProjectKind(k: Key): Kind {
    match k
    case Page | PageSize => Count
    case Archived | Billable | IsPublic => Flag
    case HourlyRate => RateObject
    case MembershipType => OneOf(MembershipTypes)
    case MembershipStatus => OneOf(MembershipStatuses)
    case _ => Text
  }

  // list_projects

  predicate ListProjectsSchema(args: Fields)
    ensures ListProjectsSchema(args) ==> WorkspaceId in args && args[WorkspaceId].String?
  {
    assert ProjectKind(WorkspaceId) == Text;
    && Conforms(args, Shape({WorkspaceId}, {Archived, Name, ClientId, Billable, Page, PageSize}))
    && forall k {:trigger ProjectKind(k)} | k in args :: HasKind(args[k], ProjectKind(k))
  }

  /** `list_projects`: the filters are forwarded under their own names; the workspace id only goes to the path. */
  function ListProjects(args: Fields): (op: Operation)
    requires ListProjectsSchema(args)
    ensures op.GetProjects? && op.workspaceId == args[WorkspaceId].s
    ensures WorkspaceId !in op.params
    ensures forall k :: k != WorkspaceId ==> Carries(op.params, k, Lookup(args, k))
  {
    GetProjects(args[WorkspaceId].s, args - {WorkspaceId})
  }

  // get_project

  /** `get_project`: a GET of the project by its two ids, with nothing else sent. */
  function GetProject(workspaceId: string, projectId: string): (op: Operation)
    ensures ApiOf(op) == EntityApi && VerbOf(op) == Get
    ensures SegmentsOf(op) == ["workspaces", workspaceId, "projects", projectId]
    ensures forall clock :: PayloadOf(op, clock) == NoPayload
  {
    Routing.GetProject(workspaceId, projectId)
  }

  // create_project

  /** The input schema of `create_project`: `name` is required; there is no `archived`. */
  predicate CreateProjectSchema(args: Fields)
    ensures CreateProjectSchema(args) ==> WorkspaceId in args && Name in args && args[WorkspaceId].String? && args[Name].String?
  {
    assert ProjectKind(WorkspaceId) == ProjectKind(Name) == Text;
    && Conforms(args, Shape({WorkspaceId, Name}, {ClientId, IsPublic, Billable, Color, Note, HourlyRate}))
    && forall k {:trigger ProjectKind(k)} | k in args :: HasKind(args[k], ProjectKind(k))
  }

  /** `create_project`: the body is the input without `workspaceId`. */
  function CreateProject(args: Fields): (op: Operation)
    requires CreateProjectSchema(args)
    ensures op.CreateProject? && op.workspaceId == args[WorkspaceId].s
    ensures WorkspaceId !in op.data && Name in op.data && Archived !in op.data
    ensures forall k :: k != WorkspaceId ==> Carries(op.data, k, Lookup(args, k))
  {
    Routing.CreateProject(args[WorkspaceId].s, args - {WorkspaceId})
  }

  /** A supplied hourly rate reaches the body as `{ amount, currency? }`, the amount always present. */
  lemma CreateProjectRate(args: Fields)
    requires CreateProjectSchema(args) && HourlyRate in args
    ensures var body := CreateProject(args).data;
      HourlyRate in body && body[HourlyRate].Object? &&
      Amount in body[HourlyRate].fields && body[HourlyRate].fields[Amount].Number? &&
      body[HourlyRate].fields.Keys <= {Amount, Currency}
  {
    assert ProjectKind(HourlyRate) == RateObject;
    assert HasKind(args[HourlyRate], RateObject);
  }

  // update_project

  /** The input schema of `update_project`: only the two ids are required, and `archived` is accepted. */
  predicate UpdateProjectSchema(args: Fields)
    ensures UpdateProjectSchema(args) ==> WorkspaceId in args && ProjectId in args && args[WorkspaceId].String? && args[ProjectId].String?
  {
    assert ProjectKind(WorkspaceId) == ProjectKind(ProjectId) == Text;
    && Conforms(args, Shape({WorkspaceId, ProjectId}, {Name, ClientId, IsPublic, Billable, Color, Note, Archived, HourlyRate}))
    && forall k {:trigger ProjectKind(k)} | k in args :: HasKind(args[k], ProjectKind(k))
  }

  /** `update_project`: both ids go to the path and the body is the rest of the input. */
  function UpdateProject(args: Fields): (op: Operation)
    requires UpdateProjectSchema(args)
    ensures op.UpdateProject?
    ensures op.workspaceId == args[WorkspaceId].s && op.projectId == args[ProjectId].s
    ensures WorkspaceId !in op.data && ProjectId !in op.data
    ensures forall k :: k !in {WorkspaceId, ProjectId} ==> Carries(op.data, k, Lookup(args, k))
  {
    Routing.UpdateProject(args[WorkspaceId].s, args[ProjectId].s, args - {WorkspaceId, ProjectId})
  }

  /**
   * Archiving is only possible through an update: the update body carries
   * `archived`; `create_project` does not declare it, so a parsed create input
   * never holds it (the schema strips it) and the create body cannot carry it.
   */
  lemma ArchiveOnlyByUpdate(w: string, p: string, name: string)
    ensures UpdateProjectSchema(map[WorkspaceId := String(w), ProjectId := String(p), Archived := Bool(true)])
    ensures UpdateProject(map[WorkspaceId := String(w), ProjectId := String(p), Archived := Bool(true)]).data
      == map[Archived := Bool(true)]
    ensures !CreateProjectSchema(map[WorkspaceId := String(w), Name := String(name), Archived := Bool(true)])
    ensures var stripped := map[WorkspaceId := String(w), Name := String(name), Archived := Bool(true)] - {Archived};
      CreateProjectSchema(stripped) && Archived !in CreateProject(stripped).data
  {
    var u := map[WorkspaceId := String(w), ProjectId := String(p), Archived := Bool(true)];
    assert u - {WorkspaceId, ProjectId} == map[Archived := Bool(true)];
    var c := map[WorkspaceId := String(w), Name := String(name), Archived := Bool(true)];
    assert Archived in c.Keys;
    assert c - {Archived} == map[WorkspaceId := String(w), Name := String(name)];
  }

  // delete_project

  /** `delete_project`: a DELETE of the project by its two ids, without a body. */
  function DeleteProject(workspaceId: string, projectId: string): (op: Operation)
    ensures ApiOf(op) == EntityApi && VerbOf(op) == Delete
    ensures SegmentsOf(op) == ["workspaces", workspaceId, "projects", projectId]
    ensures forall clock :: PayloadOf(op, clock) == NoPayload
  {
    Routing.DeleteProject(workspaceId, projectId)
  }

  /** The reply of `delete_project`: `Project <id> deleted successfully`. */
  function DeleteProjectReply(projectId: string, r: Result<(), string>): (o: Result<Reply<()>, string>)
    ensures r.Ok? ==> o == Ok(Message("Project " + projectId + " deleted successfully"))
    ensures r.Err? ==> o == Err(r.error)
  {
    assert "Project" + " " + projectId + DeletedSuffix == "Project " + projectId + " deleted successfully";
    RespondDeleted("Project", projectId, r)
  }

  // add_project_member

  /**
   * The input schema of `add_project_member`: `userId` is required,
   * `membershipType` is `PROJECT` or `MANAGER`, `membershipStatus` is
   * `ACTIVE` or `INACTIVE`.
   */
  predicate AddProjectMemberSchema(args: Fields)
    ensures AddProjectMemberSchema(args) ==> WorkspaceId in args && ProjectId in args && UserId in args && args[WorkspaceId].String? && args[ProjectId].String? && args[UserId].String?
  {
    assert ProjectKind(WorkspaceId) == ProjectKind(ProjectId) == ProjectKind(UserId) == Text;
    && Conforms(args, Shape({WorkspaceId, ProjectId, UserId}, {HourlyRate, MembershipType, MembershipStatus}))
    && forall k {:trigger ProjectKind(k)} | k in args :: HasKind(args[k], ProjectKind(k))
  }

  /** `add_project_member`: both ids go to the path; the body names the user and the membership. */
  function AddProjectMember(args: Fields): (op: Operation)
    requires AddProjectMemberSchema(args)
    ensures op.AddProjectMember?
    ensures op.workspaceId == args[WorkspaceId].s && op.projectId == args[ProjectId].s
    ensures WorkspaceId !in op.data && ProjectId !in op.data && UserId in op.data
    ensures forall k :: k !in {WorkspaceId, ProjectId} ==> Carries(op.data, k, Lookup(args, k))
  {
    Routing.AddProjectMember(args[WorkspaceId].s, args[ProjectId].s, args - {WorkspaceId, ProjectId})
  }

  /** The membership members of the body keep their enumerations. */
  lemma MembershipEnums(args: Fields)
    requires AddProjectMemberSchema(args)
    ensures var body := AddProjectMember(args).data;
      (MembershipType in body ==> body[MembershipType] in {String("PROJECT"), String("MANAGER")}) &&
      (MembershipStatus in body ==> body[MembershipStatus] in {String("ACTIVE"), String("INACTIVE")})
  {
    assert ProjectKind(MembershipType) == OneOf(MembershipTypes);
    assert ProjectKind(MembershipStatus) == OneOf(MembershipStatuses);
  }
}

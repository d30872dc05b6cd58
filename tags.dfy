/** The tag tools: the workspace id (and the tag id) go to the path, the rest is the query or the body. */
module TagTools {
  import opened Wrappers
  import opened Json
  import opened Schema
  import opened Routing
  import opened Tools

  /** The type of each member the tag schemas declare. */
  function TagKind(k: Key): Kind {
    match k
    case Page | PageSize => Count
    case Archived => Flag
    case _ => Text
  }

  predicate ListTagsSchema(args: Fields)
    ensures ListTagsSchema(args) ==> WorkspaceId in args && args[WorkspaceId].String?
  {
    assert TagKind(WorkspaceId) == Text;
    && Conforms(args, Shape({WorkspaceId}, {Archived, Name, Page, PageSize}))
    && forall k {:trigger TagKind(k)} | k in args :: HasKind(args[k], TagKind(k))
  }

  /** `list_tags`: the filters are forwarded under their own names; the workspace id only goes to the path. */
  function ListTags(args: Fields): (op: Operation)
    requires ListTagsSchema(args)
    ensures op.GetTags? && op.workspaceId == args[WorkspaceId].s
    ensures op.params.Keys <= {Archived, Name, Page, PageSize}
    ensures forall k :: k != WorkspaceId ==> Carries(op.params, k, Lookup(args, k))
  {
    GetTags(args[WorkspaceId].s, args - {WorkspaceId})
  }

  /** `get_tag`: a GET of the tag by its two ids, with nothing else sent. */
  function GetTag(workspaceId: string, tagId: string): (op: Operation)
    ensures ApiOf(op) == EntityApi && VerbOf(op) == Get
    ensures SegmentsOf(op) == ["workspaces", workspaceId, "tags", tagId]
    ensures forall clock :: PayloadOf(op, clock) == NoPayload
  {
    Routing.GetTag(workspaceId, tagId)
  }

  /** The input schema of `create_tag`: the workspace id and the name, both required, and nothing else. */
  predicate CreateTagSchema(args: Fields)
    ensures CreateTagSchema(args) ==> WorkspaceId in args && Name in args && args[WorkspaceId].String? && args[Name].String?
  {
    assert TagKind(WorkspaceId) == TagKind(Name) == Text;
    && Conforms(args, Shape({WorkspaceId, Name}, {}))
    && forall k {:trigger TagKind(k)} | k in args :: HasKind(args[k], TagKind(k))
  }

  /** `create_tag`: the body is built from the name alone, `{ name }`. */
  function CreateTag(args: Fields): (op: Operation)
    requires CreateTagSchema(args)
    ensures op.CreateTag? && op.workspaceId == args[WorkspaceId].s
    ensures op.data.Keys == {Name} && op.data[Name] == args[Name] && op.data[Name].String?
  {
    Routing.CreateTag(args[WorkspaceId].s, map[Name := args[Name]])
  }

  /**
   * Because validation strips every other member, building the body from the
   * name alone sends the same body as forwarding the input without
   * `workspaceId`, as the client and project tools do.
   */
  lemma CreateTagForwardsAll(args: Fields)
    requires CreateTagSchema(args)
    ensures CreateTag(args).data == args - {WorkspaceId}
  {
    assert args.Keys == {WorkspaceId, Name};
  }

  /** `delete_tag`: a DELETE of the tag by its two ids, without a body. */
  function DeleteTag(workspaceId: string, tagId: string): (op: Operation)
    ensures ApiOf(op) == EntityApi && VerbOf(op) == Delete
    ensures SegmentsOf(op) == ["workspaces", workspaceId, "tags", tagId]
    ensures forall clock :: PayloadOf(op, clock) == NoPayload
  {
    Routing.DeleteTag(workspaceId, tagId)
  }

  /** The reply of `delete_tag`: `Tag <id> deleted successfully`. */
  function DeleteTagReply(tagId: string, r: Result<(), string>): (o: Result<Reply<()>, string>)
    ensures r.Ok? ==> o == Ok(Message("Tag " + tagId + " deleted successfully"))
    ensures r.Err? ==> o == Err(r.error)
  {
    assert "Tag" + " " + tagId + DeletedSuffix == "Tag " + tagId + " deleted successfully";
    RespondDeleted("Tag", tagId, r)
  }
}

/** The client tools: the workspace id (and the client id) go to the path, the rest is the query or the body. */
module ClientTools {
  import opened Wrappers
  import opened Json
  import opened Schema
  import opened Routing
  import opened Tools

  /** The type of each member the client schemas declare. */
  function ClientKind(k: Key): Kind {
    match k
    case Page | PageSize => Count
    case Archived => Flag
    case _ => Text
  }

  predicate ListClientsSchema(args: Fields)
    ensures ListClientsSchema(args) ==> WorkspaceId in args && args[WorkspaceId].String?
  {
    assert ClientKind(WorkspaceId) == Text;
    && Conforms(args, Shape({WorkspaceId}, {Archived, Name, Page, PageSize}))
    && forall k {:trigger ClientKind(k)} | k in args :: HasKind(args[k], ClientKind(k))
  }

  /** `list_clients`: the filters are forwarded under their own names; the workspace id only goes to the path. */
  function ListClients(args: Fields): (op: Operation)
    requires ListClientsSchema(args)
    ensures op.GetClients? && op.workspaceId == args[WorkspaceId].s
    ensures op.params.Keys <= {Archived, Name, Page, PageSize}
    ensures forall k :: k != WorkspaceId ==> Carries(op.params, k, Lookup(args, k))
  {
    GetClients(args[WorkspaceId].s, args - {WorkspaceId})
  }

  /** `get_client`: a GET of the client by its two ids, with nothing else sent. */
  function GetClient(workspaceId: string, clientId: string): (op: Operation)
    ensures ApiOf(op) == EntityApi && VerbOf(op) == Get
    ensures SegmentsOf(op) == ["workspaces", workspaceId, "clients", clientId]
    ensures forall clock :: PayloadOf(op, clock) == NoPayload
  {
    Routing.GetClient(workspaceId, clientId)
  }

  /** The input schema of `create_client`: `name` is required; `email`, `address` and `note` are optional. */
  predicate CreateClientSchema(args: Fields)
    ensures CreateClientSchema(args) ==> WorkspaceId in args && Name in args && args[WorkspaceId].String? && args[Name].String?
  {
    assert ClientKind(WorkspaceId) == ClientKind(Name) == Text;
    && Conforms(args, Shape({WorkspaceId, Name}, {Email, Address, Note}))
    && forall k {:trigger ClientKind(k)} | k in args :: HasKind(args[k], ClientKind(k))
  }

  /** `create_client`: the body is the input without `workspaceId`, and always names the client. */
  function CreateClient(args: Fields): (op: Operation)
    requires CreateClientSchema(args)
    ensures op.CreateClient? && op.workspaceId == args[WorkspaceId].s
    ensures Name in op.data && op.data.Keys <= {Name, Email, Address, Note}
    ensures forall k :: k != WorkspaceId ==> Carries(op.data, k, Lookup(args, k))
  {
    Routing.CreateClient(args[WorkspaceId].s, args - {WorkspaceId})
  }

  /** `delete_client`: a DELETE of the client by its two ids, without a body. */
  function DeleteClient(workspaceId: string, clientId: string): (op: Operation)
    ensures ApiOf(op) == EntityApi && VerbOf(op) == Delete
    ensures SegmentsOf(op) == ["workspaces", workspaceId, "clients", clientId]
    ensures forall clock :: PayloadOf(op, clock) == NoPayload
  {
    Routing.DeleteClient(workspaceId, clientId)
  }

  /** The reply of `delete_client`: `Client <id> deleted successfully`. */
  function DeleteClientReply(clientId: string, r: Result<(), string>): (o: Result<Reply<()>, string>)
    ensures r.Ok? ==> o == Ok(Message("Client " + clientId + " deleted successfully"))
    ensures r.Err? ==> o == Err(r.error)
  {
    assert "Client" + " " + clientId + DeletedSuffix == "Client " + clientId + " deleted successfully";
    RespondDeleted("Client", clientId, r)
  }
}

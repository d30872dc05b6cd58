/**
 * The client's derived operations: the current workspace, the running timer,
 * the full URL of a request, and how a call's outcome passes through the
 * interceptor of the API it went to. Replies of the remote service are
 * parameters: the model says which requests are issued and what is made of
 * their replies.
 */
module Client {
  import opened Wrappers
  import opened Json
  import opened Regions
  import opened Routing
  import opened Errors

  /** The members of a user record the client reads. */
  datatype User = User(id: string, activeWorkspace: string, defaultWorkspace: string)

  /** The requests a derived operation issued, in order, and what it returned. */
  datatype Trace<T> = Trace(calls: seq<Operation>, result: Result<T, string>)

  /**
   * `getCurrentWorkspace`: the configured workspace when one is set (and not
   * empty), otherwise the user's active workspace, or the default one when
   * the active one is empty. `userReply` is what fetching the current user
   * yields; `workspaceReply(w)` what fetching workspace `w` yields.
   */
  function GetCurrentWorkspace<W>(config: Config, userReply: Result<User, string>,
                                  workspaceReply: string -> Result<W, string>): (t: Trace<W>)
    ensures TruthyText(config.workspaceId) ==>
      t.calls == [GetWorkspace(config.workspaceId.value)] && t.result == workspaceReply(config.workspaceId.value)
    ensures TruthyText(config.workspaceId) ==> GetCurrentUser !in t.calls
    ensures !TruthyText(config.workspaceId) ==> |t.calls| > 0 && t.calls[0] == GetCurrentUser
    ensures !TruthyText(config.workspaceId) && userReply.Err? ==>
      t.calls == [GetCurrentUser] && t.result == Err(userReply.error)
    ensures !TruthyText(config.workspaceId) && userReply.Ok? ==>
      var u := userReply.value;
      |t.calls| == 2 && t.calls[1].GetWorkspace? &&
      (u.activeWorkspace != "" ==> t.calls[1].workspaceId == u.activeWorkspace) &&
      (u.activeWorkspace == "" ==> t.calls[1].workspaceId == u.defaultWorkspace) &&
      t.result == workspaceReply(t.calls[1].workspaceId)
  {
    if TruthyText(config.workspaceId) then
      var w := config.workspaceId.value;
      Trace([GetWorkspace(w)], workspaceReply(w))
    else
      match userReply
      case Err(e) => Trace([GetCurrentUser], Err(e))
      case Ok(user) =>
        var w := if user.activeWorkspace != "" then user.activeWorkspace else user.defaultWorkspace;
        Trace([GetCurrentUser, GetWorkspace(w)], workspaceReply(w))
  }

  /** The query `getRunningTimer` sends: only `in-progress`, set to true. */
  const InProgressOnly: Fields := map[InProgressQuery := Bool(true)]

  /**
   * `getRunningTimer`: one listing of the user's in-progress entries; the first
   * one, or none when the list is empty. `listReply` is what the listing yields.
   */
  function GetRunningTimer<E>(workspaceId: string, userId: string, listReply: Result<seq<E>, string>): (t: Trace<Option<E>>)
    ensures t.calls == [GetTimeEntries(workspaceId, userId, InProgressOnly)]
    ensures listReply.Ok? ==> t.result.Ok?
    ensures listReply.Ok? && |listReply.value| > 0 ==> t.result.value == Some(listReply.value[0])
    ensures listReply.Ok? && |listReply.value| == 0 ==> t.result.value == None
    ensures listReply.Err? ==> t.result == Err(listReply.error)
  {
    var call := GetTimeEntries(workspaceId, userId, map[InProgressQuery := Bool(true)]);
    match listReply
    case Err(e) => Trace([call], Err(e))
    case Ok(entries) => Trace([call], Ok(if |entries| > 0 then Some(entries[0]) else None))
  }

  /** The entries the running-timer listing asks for are exactly the in-progress ones. */
  lemma RunningTimerAsksInProgress(workspaceId: string, userId: string)
    ensures var q := PayloadOf(GetTimeEntries(workspaceId, userId, InProgressOnly), "");
      q.Query? && q.params.Keys == {InProgressQuery} && q.params[InProgressQuery] == Bool(true)
  {
  }

  /** The base URL of the API an operation goes to, for the configured region. */
  function BaseOf(config: Config, op: Operation): (b: Option<string>)
    ensures b.Some? <==> FromCode(config.region).Some?
    ensures b.Some? ==> var r := FromCode(config.region).value;
      b.value == (if ApiOf(op) == ReportsApi then ReportsBase(r) else ApiBase(r))
  {
    if IsReport(op) then ReportsBaseOf(config) else ApiBaseOf(config)
  }

  /** The absolute URL of a request: the API's base URL followed by the path. */
  function Url(config: Config, op: Operation): (u: Option<string>)
    ensures u.Some? <==> FromCode(config.region).Some?
    ensures u.Some? && IsReport(op) ==>
      var base := ReportsBase(FromCode(config.region).value);
      |base| <= |u.value| && u.value[..|base|] == base && u.value[|base|..] == Path(op)
    ensures u.Some? && !IsReport(op) ==>
      var base := ApiBase(FromCode(config.region).value);
      |base| <= |u.value| && u.value[..|base|] == base && u.value[|base|..] == Path(op)
  {
    match BaseOf(config, op)
    case Some(base) => Some(base + Path(op))
    case None => None
  }

  /** A call's outcome as the caller sees it, after the interceptor of the API the call used. */
  function Perform<T>(op: Operation, outcome: Result<T, Failure>): (r: Result<T, string>)
    ensures outcome.Ok? ==> r == Ok(outcome.value)
    ensures outcome.Err? ==> r.Err?
    ensures outcome.Err? ==>
      DecodeErrorText(r.error) == Some(((if IsReport(op) then ReportsApi else EntityApi), ExtractErrorMessage(outcome.error)))
  {
    Intercept(ApiOf(op), outcome)
  }
}

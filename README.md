# clockify-mcp, modelled in Dafny

clockify-mcp is an MCP server that exposes Clockify as tools: each tool
parses its input against a zod schema, splits the path ids from the rest of
the input, renames or folds a few members, and makes one call through
`ClockifyClient`, which sends the request to the entity API or to the
reports API of the configured region and rewrites failures into a prefixed
error message. This project models that deterministic shaping as pure
functions and proves what each tool sends and replies.

Modules:

- `Json`, `Schema`: JSON values as maps from member names (`Key`) to
  values, a missing member standing for `undefined`; a tool input schema is
  a `Shape` (required and optional members; undeclared members are
  stripped) plus a `Kind` per member.
- `Regions`: the two region tables and `createClockifyClient`.
- `Routing`: one `Operation` per client method, with the API, verb, path
  segments and query or body it sends.
- `Errors`: `extractErrorMessage` and the two response interceptors.
- `Client`: `getCurrentWorkspace`, `getRunningTimer`, request URLs and the
  outcome of a call as its caller sees it.
- `Tools`: serialized replies and the delete confirmations.
- `TimeEntryTools`, `TaskTools`, `ProjectTools`, `ClientTools`, `TagTools`,
  `ReportTools`: one function per tool from its parsed input to the
  client call, and lemmas about what reaches the service.

## Model

| member | source | states |
|---|---|---|
| Regions.CodeRoundTrip | src/clockify-client.ts:25-39 | every one of the five regions is found again from its code, so both tables are total over `Region` |
| Regions.TablesInjective | src/clockify-client.ts:25-39 | no two regions share an entity base URL or a reports base URL |
| Regions.Euc1BaseUrls | src/clockify-client.ts:27-35 | region `euc1` gives `https://euc1.clockify.me/api/v1` and `https://euc1.reports.api.clockify.me/v1` |
| Regions.ApiBaseOf | src/clockify-client.ts:48 | the entity base URL is defined exactly when the configured string is a region code, and is that region's table entry |
| Regions.ReportsBaseOf | src/clockify-client.ts:49 | the same for the reports base URL, looked up with the same region |
| Regions.CreateClockifyClient | src/clockify-client.ts:517-531 | fails with the fixed message exactly when the API key is missing or empty; otherwise keeps key and workspace, and the region defaults to `euc1` when unset or empty |
| Regions.FactoryBaseUrls | src/clockify-client.ts:517-531 | a client built without a region talks to the euc1 hosts; one built with a region code talks to that region's hosts in both APIs |
| Regions.UnknownRegionUnchecked | src/clockify-client.ts:523 | an unknown region string is accepted by the factory and yields no base URL for either API |
| Errors.ExtractErrorMessage | src/clockify-client.ts:84-93 | a transport failure gives its own message; an HTTP failure gives `<status> - <reason>` with the status in plain decimal (no leading zeros), parsed back to the status and the body's string `message` or else the status text |
| Errors.HttpMessageParses | src/clockify-client.ts:88-90 | `<digits> - <reason>` reads back as the number and the reason |
| Errors.ErrorText | src/clockify-client.ts:67-81 | the error text is the API's prefix followed by the extracted message |
| Errors.ErrorTextRoundTrip | src/clockify-client.ts:67-81 | the prefix tells the entity API from the reports API, and the message (with status and reason) is recoverable after it |
| Errors.Intercept | src/clockify-client.ts:67-81 | a response passes through unchanged; a failure becomes an error naming the failing API and the extracted message |
| Errors.NotFoundText | src/clockify-client.ts:84-88 | a 404 with body message `Not found` surfaces as `<prefix>404 - Not found` |
| Errors.FallbackExamples | src/clockify-client.ts:87-92 | a non-string `message` or no body falls back to the status text; a transport failure keeps its message |
| Decimal.ToNatFromNat | src/clockify-client.ts:88 | the decimal rendering of a status reads back as the same number |
| Routing.ApiOf | src/clockify-client.ts:476-514 | an operation goes to the reports API exactly when it is one of the four report methods |
| Routing.VerbOf | src/clockify-client.ts:96-514 | DELETE exactly for the deletions, PUT exactly for the updates, PATCH exactly for stopping the timer, POST for the three reports and GET for shared reports |
| Routing.PostsExactlyCreations | src/clockify-client.ts:96-514 | POST exactly for the creations (projects, members, tasks, clients, tags, time entries, starting a timer) and the three filtered reports; with `VerbOf`, every other method, `getCurrentUser`, `getWorkspaces`, `getWorkspace` and `getUser` included, is a GET |
| Routing.SegmentsOf | src/clockify-client.ts:96-514 | `getCurrentUser` requests exactly `user` and `getWorkspaces` exactly `workspaces`; every other path starts `workspaces/{workspaceId}` (built by `Scoped` over `Below`), with the task paths as `TaskSegments` gives them |
| Routing.TaskSegments | src/clockify-client.ts:228-301 | task paths are `workspaces/{w}/projects/{p}/tasks`, followed by the task id for the single-task methods |
| Routing.JoinPath | src/clockify-client.ts:96-514 | a non-empty segment list becomes a path starting with `/`; no segments give the empty path |
| Routing.Path | src/clockify-client.ts:96-514 | every operation's path is absolute: non-empty and starting with `/` |
| Routing.EndpointOf | src/clockify-client.ts:476-514 | an endpoint is on the reports API exactly for a report, and then it is a GET or POST under `workspaces/{workspaceId}` |
| Routing.SplitJoin | src/clockify-client.ts:96-514 | joining slash-free segments into a path and splitting it again gives the segments back |
| Routing.TaskPathNests | src/clockify-client.ts:228-301 | with slash-free ids, the task path string splits into the nested segments with each id in its place |
| Routing.PayloadOf | src/clockify-client.ts:211-463 | deletions send nothing; stopping the timer sends a body holding only `end`, the time read |
| Routing.PayloadFollowsVerb | src/clockify-client.ts:96-514 | a GET sends no body, and only a GET sends query parameters |
| Routing.StartTimerBody | src/clockify-client.ts:435-454 | `startTimer` posts the caller's data with `end` set to null, overriding any `end` given, and keeps every other member |
| Routing.RequestOf | src/clockify-client.ts:96-514 | a GET request never carries a body, any other never carries a query, and a deletion is a DELETE with nothing sent |
| Client.GetCurrentWorkspace | src/clockify-client.ts:132-138 | with a non-empty configured workspace, one fetch of it and no user fetch; otherwise the user, then the active workspace or, when that is empty, the default one |
| Client.GetRunningTimer | src/clockify-client.ts:465-473 | one listing with `in-progress: true`; the first entry, or none for an empty list, and the listing's error otherwise |
| Client.RunningTimerAsksInProgress | src/clockify-client.ts:469-471 | the listing's query holds `in-progress` set to true and nothing else |
| Client.BaseOf | src/clockify-client.ts:48-49 | a base URL exists exactly for a known region code, and it is that region's reports URL for a report and its API URL otherwise |
| Client.Url | src/clockify-client.ts:48-49 | a request URL exists exactly for a known region; it is the base URL of the API the operation uses followed by exactly the operation's `Path` |
| Client.Perform | src/clockify-client.ts:67-81 | a call's success is passed on as is; its failure carries the prefix of the API the operation went to |
| Tools.Respond | src/tools/clients.ts:19-29 | a handler replies with its client call's result serialized; a failure is not caught and reaches the caller as the same error |
| Tools.DeletedMessage | src/tools/projects.ts:133 | the confirmation is `<Resource> <id> deleted successfully`, with the id recoverable from its place |
| Tools.DeletedMessageInjective | src/tools/projects.ts:133 | different ids give different confirmations |
| Tools.RespondDeleted | src/tools/clients.ts:82-88 | after a successful deletion the reply is the confirmation only; a client error is the tool's error |
| Json.InProgressHyphenated | clockify/src/tools/time-entries.ts:25-29 | the running-entry filter goes out as `in-progress`, a name distinct from the tool parameter `inProgress` |
| Json.IsActiveHyphenated | clockify/src/tools/tasks.ts:20-24 | the active-task filter goes out as `is-active`, a name distinct from the tool parameter `isActive` |
| TimeEntryTools.ListTimeEntries | clockify/src/tools/time-entries.ts:25-29 | the ids go only to the path, `inProgress` is sent as `in-progress`, the other filters are forwarded unchanged, and nothing else is sent |
| TimeEntryTools.GetTimeEntry | clockify/src/tools/time-entries.ts:48-49 | a GET of `workspaces/{w}/time-entries/{e}` on the entity API with nothing sent |
| TimeEntryTools.CreateTimeEntry | clockify/src/tools/time-entries.ts:65-75 | `start` is required and sent; the body is the input without `workspaceId` |
| TimeEntryTools.UpdateTimeEntry | clockify/src/tools/time-entries.ts:91-102 | both ids go to the path only; every other member supplied is in the body |
| TimeEntryTools.UpdateWithOnlyIds | clockify/src/tools/time-entries.ts:91-102 | only the two ids are required, and then the body is empty |
| TimeEntryTools.DeleteTimeEntry | clockify/src/tools/time-entries.ts:121-122 | a DELETE of `workspaces/{w}/time-entries/{e}` without a body |
| TimeEntryTools.DeleteTimeEntryReply | clockify/src/tools/time-entries.ts:121-127 | the reply is exactly `Time entry <id> deleted successfully` |
| TimeEntryTools.StartTimer | clockify/src/tools/time-entries.ts:138-149 | the input has no `start`, so `start` is always the clock value; the other members are forwarded |
| TimeEntryTools.StartTimerRequest | src/clockify-client.ts:435-454 | starting a timer POSTs `workspaces/{w}/time-entries` with `start` the clock value, `end` null and the optional members supplied |
| TimeEntryTools.StopTimer | clockify/src/tools/time-entries.ts:168-169 | only the two ids are forwarded |
| TimeEntryTools.StopTimerRequest | src/clockify-client.ts:456-463 | stopping the timer PATCHes `workspaces/{w}/user/{u}/time-entries` with a body holding only `end` |
| TimeEntryTools.RunningTimerReply | clockify/src/tools/time-entries.ts:188-207 | a found entry is returned serialized, none gives `No running timer found`, and an error is passed on |
| TimeEntryTools.RunningTimerTool | clockify/src/tools/time-entries.ts:188-207 | an empty listing gives the sentence and not an error; otherwise the first entry |
| TaskTools.ListTasks | clockify/src/tools/tasks.ts:20-24 | both ids go only to the path, `isActive` is sent as `is-active`, `name`, `page` and `pageSize` are forwarded, and nothing else is sent |
| TaskTools.GetTask | clockify/src/tools/tasks.ts:44-45 | a GET of `workspaces/{w}/projects/{p}/tasks/{t}` with nothing sent |
| TaskTools.CreateTask | clockify/src/tools/tasks.ts:61-77 | `name` is required and sent; the body is the input without the two ids |
| TaskTools.UpdateTask | clockify/src/tools/tasks.ts:93-110 | the three ids go only to the path; the body is the rest |
| TaskTools.DeleteTask | clockify/src/tools/tasks.ts:130-131 | a DELETE of the nested task path without a body |
| TaskTools.DeleteTaskReply | clockify/src/tools/tasks.ts:130-137 | the reply is exactly `Task <taskId> deleted successfully` |
| ProjectTools.ListProjects | src/tools/projects.ts:13-22 | `workspaceId` goes only to the path; `archived`, `name`, `clientId`, `billable`, `page`, `pageSize` are forwarded without renaming |
| ProjectTools.GetProject | src/tools/projects.ts:41-42 | a GET of `workspaces/{w}/projects/{p}` with nothing sent |
| ProjectTools.CreateProject | src/tools/projects.ts:58-74 | `name` is required and sent, `archived` cannot be; the body is the input without `workspaceId` |
| ProjectTools.CreateProjectRate | src/tools/projects.ts:65-71 | a supplied hourly rate is sent as an object with a numeric `amount` and at most a `currency` besides |
| ProjectTools.UpdateProject | src/tools/projects.ts:90-108 | both ids go only to the path; the body is the rest |
| ProjectTools.ArchiveOnlyByUpdate | src/tools/projects.ts:58-108 | an update naming only the ids and `archived` sends `{archived}`; a parsed create input never holds `archived` (the schema strips it, and the stripped input creates a project with no `archived`), so `create_project` cannot archive |
| ProjectTools.DeleteProject | src/tools/projects.ts:127-128 | a DELETE of `workspaces/{w}/projects/{p}` without a body |
| ProjectTools.DeleteProjectReply | src/tools/projects.ts:127-133 | the reply is exactly `Project <id> deleted successfully` |
| ProjectTools.AddProjectMember | src/tools/projects.ts:144-164 | `userId` is required and sent; the body excludes both ids |
| ProjectTools.MembershipEnums | src/tools/projects.ts:154-161 | a sent `membershipType` is `PROJECT` or `MANAGER`, a sent `membershipStatus` is `ACTIVE` or `INACTIVE` |
| ClientTools.ListClients | src/tools/clients.ts:13-20 | `workspaceId` goes only to the path; `archived`, `name`, `page`, `pageSize` are forwarded unchanged and nothing else |
| ClientTools.GetClient | src/tools/clients.ts:36-40 | a GET of `workspaces/{w}/clients/{c}` with nothing sent |
| ClientTools.CreateClient | src/tools/clients.ts:56-63 | `name` is required and sent; the body is the input without `workspaceId` |
| ClientTools.DeleteClient | src/tools/clients.ts:82-83 | a DELETE of `workspaces/{w}/clients/{c}` without a body |
| ClientTools.DeleteClientReply | src/tools/clients.ts:82-88 | the reply is exactly `Client <id> deleted successfully` |
| TagTools.ListTags | clockify/src/tools/tags.ts:13-20 | `workspaceId` goes only to the path; `archived`, `name`, `page`, `pageSize` are forwarded unchanged and nothing else |
| TagTools.GetTag | clockify/src/tools/tags.ts:36-40 | a GET of `workspaces/{w}/tags/{t}` with nothing sent |
| TagTools.CreateTag | clockify/src/tools/tags.ts:56-60 | the body is exactly `{name}` |
| TagTools.CreateTagForwardsAll | clockify/src/tools/tags.ts:56-60 | since the schema strips every other member, `{name}` equals the input without `workspaceId` |
| TagTools.DeleteTag | clockify/src/tools/tags.ts:79-80 | a DELETE of `workspaces/{w}/tags/{t}` without a body |
| TagTools.DeleteTagReply | clockify/src/tools/tags.ts:79-85 | the reply is exactly `Tag <id> deleted successfully` |
| ReportTools.DetailedReport | src/tools/reports.ts:48-50 | `page` and `pageSize` never appear at top level, and `workspaceId` goes only to the path |
| ReportTools.DetailedReportForwards | src/tools/reports.ts:48-50 | every other member of the input is forwarded unchanged |
| ReportTools.DetailedFilterBuilt | src/tools/reports.ts:51-53 | `detailedFilter` is sent iff `page` or `pageSize` is given; a missing one becomes 1 or 50, a given one (0 included) is kept |
| ReportTools.DetailedReportEnums | src/tools/reports.ts:32-44 | in `get_detailed_report`, `billable` is sent only as `BOTH`, `BILLABLE` or `NOT_BILLABLE`, and `sortOrder` only as `ASCENDING` or `DESCENDING` |
| ReportTools.FilterMemberKind | src/tools/reports.ts:5-17 | a parsed entity filter is an object with at most `ids` (strings), `contains` (`CONTAINS`/`DOES_NOT_CONTAIN`) and `status` (`ALL`/`ACTIVE`/`ARCHIVED`) |
| ReportTools.DetailedEntityFilter | src/tools/reports.ts:36-40 | in `get_detailed_report`, each entity filter is sent exactly when given and unchanged, as a filter object |
| ReportTools.SummaryReport | src/tools/reports.ts:93-97 | `groups` never appears at top level, and `workspaceId` goes only to the path |
| ReportTools.SummaryReportForwards | src/tools/reports.ts:93-95 | every other member of the input is forwarded unchanged |
| ReportTools.SummaryFilterPresent | src/tools/reports.ts:96 | `summaryFilter` is sent iff `groups` is given, an empty array included |
| ReportTools.SummaryFilterHoldsGroups | src/tools/reports.ts:96 | when sent, `summaryFilter` is `{groups}` |
| ReportTools.SummaryReportEnums | src/tools/reports.ts:79-91 | in `get_summary_report`, `billable` and `sortOrder` are sent only with their enumerated values |
| ReportTools.SummaryEntityFilter | src/tools/reports.ts:83-87 | in `get_summary_report`, each entity filter is sent exactly when given and unchanged, as a filter object |
| ReportTools.WeeklyReport | src/tools/reports.ts:130-134 | `group` and `subgroup` never appear at top level, and `workspaceId` goes only to the path |
| ReportTools.WeeklyReportForwards | src/tools/reports.ts:130-132 | every other member of the input is forwarded unchanged |
| ReportTools.WeeklyFilterPresent | src/tools/reports.ts:133 | `weeklyFilter` is sent iff `group` is a non-empty string; a `subgroup` alone is dropped |
| ReportTools.WeeklyFilterHoldsGroups | src/tools/reports.ts:133 | when sent, `weeklyFilter` holds `group` and, if given, `subgroup`, and nothing else |
| ReportTools.WeeklyReportEnums | src/tools/reports.ts:110-129 | in `get_weekly_report`, `billable` is sent only with its enumerated values, and no `sortOrder` is ever sent |
| ReportTools.WeeklyEntityFilter | src/tools/reports.ts:120-124 | in `get_weekly_report`, each entity filter is sent exactly when given and unchanged, as a filter object |
| ReportTools.SharedReports | src/tools/reports.ts:152-153 | a GET of `workspaces/{w}/shared-reports` on the reports API with nothing but the workspace id |

## Left out

- The HTTP transport (axios instances, headers, interceptor registration, awaiting responses): the model describes the request each method issues and takes the service's reply as a parameter.
- JSON serialization of tool results: a result is returned as `Serialized(value)`; only the literal sentences are exact.
- zod and MCP registration: a parsed input is a map that satisfies its schema predicate (required members present, undeclared members stripped, each member of its declared kind); zod's parsing itself is not modelled.
- JavaScript numbers are modelled as integers (page, page size, rate amount, HTTP status); fractional values are not represented.
- Clock reads (`new Date().toISOString()` in `stopTimer`, `getLocalISOString` in `start_timer`) are parameters.
- A member whose value is `undefined` is modelled as an absent member, since serialization and query encoding drop it.
- Ids are interpolated into paths unencoded, as in the source; the path round trip holds only for ids without a slash.
- clockify/src/index.ts, the process entry and stdio wiring, is not part of this model.
- The tools of src/tools/users.ts and src/tools/workspaces.ts forward one call each with no reshaping; only their client operations are modelled, in `Routing`.
- src/types.ts holds declarations only; its enums appear as the `Region` datatype and the `OneOf` kinds.
- An unsupported region string is not validated by the source. In the model every string that is not one of the five codes gets no base URL; the source looks the string up in the two region object literals, which gives `undefined`, or an inherited `Object.prototype` member for names such as `toString` or `constructor`, so the resulting base URL is not modelled.
- clockify/src/clockify-client.ts, which the tools under clockify/src/tools import, is not part of this model; those tools are modelled against src/clockify-client.ts.
- The reports' `exportType`, the projects' `memberships` and `estimate`, and other request fields the client types allow but no tool schema declares are never sent by a tool and are not modelled.

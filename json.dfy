/**
 * JSON values as the adapter sends and receives them. An object is a map from
 * keys to values; a key whose value would be `undefined` is simply absent,
 * because validation leaves absent optional keys out and both JSON
 * serialization and query-string encoding drop `undefined` values.
 */
module Json {
  import opened Wrappers

  /**
   * The member names that occur in the objects the adapter builds and reads:
   * the tools' parameter names, the names the remote service expects where
   * they differ (`in-progress`, `is-active`), the nested filter and rate
   * members, and the `message` of an error body.
   */
  datatype Key =
    | WorkspaceId
    | UserId
    | ProjectId
    | TaskId
    | TimeEntryId
    | ClientId
    | TagId
    | Name
    | Page
    | PageSize
    | Archived
    | Billable
    | Description
    | Start
    | End
    | Project
    | Task
    | InProgress
    | InProgressQuery
    | IsActive
    | IsActiveQuery
    | TagIds
    | AssigneeIds
    | Estimate
    | Status
    | HourlyRate
    | Amount
    | Currency
    | IsPublic
    | Color
    | Note
    | MembershipType
    | MembershipStatus
    | Email
    | Address
    | DateRangeStart
    | DateRangeEnd
    | Rounding
    | SortOrder
    | Users
    | Clients
    | Projects
    | Tasks
    | Tags
    | Groups
    | Group
    | Subgroup
    | DetailedFilter
    | SummaryFilter
    | WeeklyFilter
    | Ids
    | Contains
    | MessageKey

  /** The member name each key stands for on the wire. */
  function Wire(k: Key): string {
    match k
    case WorkspaceId => "workspaceId"
    case UserId => "userId"
    case ProjectId => "projectId"
    case TaskId => "taskId"
    case TimeEntryId => "timeEntryId"
    case ClientId => "clientId"
    case TagId => "tagId"
    case Name => "name"
    case Page => "page"
    case PageSize => "pageSize"
    case Archived => "archived"
    case Billable => "billable"
    case Description => "description"
    case Start => "start"
    case End => "end"
    case Project => "project"
    case Task => "task"
    case InProgress => "inProgress"
    case InProgressQuery => "in-progress"
    case IsActive => "isActive"
    case IsActiveQuery => "is-active"
    case TagIds => "tagIds"
    case AssigneeIds => "assigneeIds"
    case Estimate => "estimate"
    case Status => "status"
    case HourlyRate => "hourlyRate"
    case Amount => "amount"
    case Currency => "currency"
    case IsPublic => "isPublic"
    case Color => "color"
    case Note => "note"
    case MembershipType => "membershipType"
    case MembershipStatus => "membershipStatus"
    case Email => "email"
    case Address => "address"
    case DateRangeStart => "dateRangeStart"
    case DateRangeEnd => "dateRangeEnd"
    case Rounding => "rounding"
    case SortOrder => "sortOrder"
    case Users => "users"
    case Clients => "clients"
    case Projects => "projects"
    case Tasks => "tasks"
    case Tags => "tags"
    case Groups => "groups"
    case Group => "group"
    case Subgroup => "subgroup"
    case DetailedFilter => "detailedFilter"
    case SummaryFilter => "summaryFilter"
    case WeeklyFilter => "weeklyFilter"
    case Ids => "ids"
    case Contains => "contains"
    case MessageKey => "message"
  }

  /** The running-entry filter goes out as `in-progress`, not as the tool parameter's name. */
  lemma InProgressHyphenated()
    ensures Wire(InProgressQuery) == "in-progress" && Wire(InProgressQuery) != Wire(InProgress)
  {
  }

  /** The active-task filter goes out as `is-active`, not as the tool parameter's name. */
  lemma IsActiveHyphenated()
    ensures Wire(IsActiveQuery) == "is-active" && Wire(IsActiveQuery) != Wire(IsActive)
  {
  }

  datatype Json =
    | Null
    | Bool(b: bool)
    | Number(n: int)
    | String(s: string)
    | Array(items: seq<Json>)
    | Object(fields: map<Key, Json>)

  /** The members of a JSON object. */
  type Fields = map<Key, Json>

  /** `{ ...m, [key]: v }`: sets `key` when a value is supplied and leaves `m` alone otherwise. */
  function With(m: Fields, key: Key, v: Option<Json>): Fields {
    if v.Some? then m[key := v.value] else m
  }

  /**
   * `m` forwards the optional value `v` under `key`: the key is present exactly
   * when a value was supplied, and then holds that value unchanged.
   */
  predicate Carries(m: Fields, key: Key, v: Option<Json>) {
    (key in m <==> v.Some?) && (v.Some? ==> m[key] == v.value)
  }

  /** The value of `key` in `m`, or nothing when `m` has no such member. */
  function Lookup(m: Fields, key: Key): (v: Option<Json>)
    ensures Carries(m, key, v)
  {
    if key in m then Some(m[key]) else None
  }

  /** JavaScript truthiness of a defined value: arrays and objects are always truthy. */
  predicate Truthy(j: Json) {
    match j
    case Null => false
    case Bool(b) => b
    case Number(n) => n != 0
    case String(s) => s != ""
    case Array(_) => true
    case Object(_) => true
  }
}

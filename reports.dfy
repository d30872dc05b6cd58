/**
 * The report tools: which members of the parsed input go to the reports
 * API at top level, and how the paging, grouping and weekly options are
 * folded into the optional `detailedFilter`, `summaryFilter` and
 * `weeklyFilter` objects.
 */
module ReportTools {
  import opened Wrappers
  import opened Json
  import opened Schema
  import opened Routing

  const SortOrders := {"ASCENDING", "DESCENDING"}
  const BillableFilters := {"BOTH", "BILLABLE", "NOT_BILLABLE"}

  /** The members the three report schemas share: the period is required, every filter optional. */
  const ReportRequired := {WorkspaceId, DateRangeStart, DateRangeEnd}
  const ReportOptional := {Description, Rounding, Users, Clients, Projects, Tasks, Tags, Billable}

  /** The type of each member the report schemas declare. */
  function ReportKind(k: Key): Kind {
    match k
    case Users | Clients | Projects | Tasks | Tags => FilterObject
    case Billable => OneOf(BillableFilters)
    case SortOrder => OneOf(SortOrders)
    case Rounding => Flag
    case Page | PageSize => Count
    case Groups => TextList
    case _ => Text
  }

  /** The members that take the shared entity filter schema. */
  const EntityFilters := {Users, Clients, Projects, Tasks, Tags}

  /** `billable` and `sortOrder`, when sent at all, hold one of their enumerated values. */
  predicate SentFromEnums(data: Fields) {
    && (Billable in data ==> data[Billable] in {String("BOTH"), String("BILLABLE"), String("NOT_BILLABLE")})
    && (SortOrder in data ==> data[SortOrder] in {String("ASCENDING"), String("DESCENDING")})
  }

  /**
   * The entity filter `k` (`users`, `clients`, `projects`, `tasks`, `tags`) is
   * sent exactly when given, unchanged, and then it is an object with at most
   * `ids` (a string list), `contains` and `status`, the last two from their
   * enumerations.
   */
  predicate EntityFilterSent(args: Fields, data: Fields, k: Key) {
    && (k in data <==> k in args)
    && (k in data ==> data[k] == args[k] && HasKind(data[k], FilterObject))
  }

  /** A member typed by the report schemas that takes the entity filter schema is a well-formed filter object. */
  lemma FilterMemberKind(args: Fields, k: Key)
    requires k in EntityFilters && k in args
    requires forall k' {:trigger ReportKind(k')} | k' in args :: HasKind(args[k'], ReportKind(k'))
    ensures args[k].Object? && args[k].fields.Keys <= {Ids, Contains, Status}
    ensures HasKind(args[k], FilterObject)
  {
    assert ReportKind(k) == FilterObject;
  }

  // get_detailed_report

  predicate DetailedReportSchema(args: Fields)
    ensures DetailedReportSchema(args) ==> WorkspaceId in args && DateRangeStart in args && DateRangeEnd in args && args[WorkspaceId].String? && args[DateRangeStart].String? && args[DateRangeEnd].String?
  {
    assert ReportKind(WorkspaceId) == ReportKind(DateRangeStart) == ReportKind(DateRangeEnd) == Text;
    && Conforms(args, Shape(ReportRequired, ReportOptional + {SortOrder, Page, PageSize}))
    && forall k {:trigger ReportKind(k)} | k in args :: HasKind(args[k], ReportKind(k))
  }

  /**
   * `page !== undefined || pageSize !== undefined ? { page: page ?? 1,
   * pageSize: pageSize ?? 50 } : undefined`.
   */
  function DetailedFilterOf(page: Option<Json>, pageSize: Option<Json>): Option<Json> {
    if page.Some? || pageSize.Some? then
      Some(Object(map[Page := page.GetOr(Number(1)), PageSize := pageSize.GetOr(Number(50))]))
    else
      None
  }

  /**
   * `get_detailed_report`: the paging members never appear at top level and
   * the workspace id only in the path.
   */
  function DetailedReport(args: Fields): (op: Operation)
    requires DetailedReportSchema(args)
    ensures op.GetDetailedReport? && op.workspaceId == args[WorkspaceId].s
    ensures WorkspaceId !in op.data && Page !in op.data && PageSize !in op.data
  {
    var params := args - {WorkspaceId, Page, PageSize};
    GetDetailedReport(args[WorkspaceId].s,
      With(params, DetailedFilter, DetailedFilterOf(Lookup(args, Page), Lookup(args, PageSize))))
  }

  /** Every other member of the input is forwarded as it is. */
  lemma DetailedReportForwards(args: Fields)
    requires DetailedReportSchema(args)
    ensures var data := DetailedReport(args).data;
      forall k :: k !in {WorkspaceId, Page, PageSize, DetailedFilter} ==> Carries(data, k, Lookup(args, k))
  {
  }

  /**
   * `detailedFilter` is sent exactly when a page or a page size is given; a
   * missing one then defaults to 1 or 50, and a given one is kept, 0 included.
   */
  lemma DetailedFilterBuilt(args: Fields)
    requires DetailedReportSchema(args)
    ensures var data := DetailedReport(args).data;
      (DetailedFilter in data <==> Page in args || PageSize in args) &&
      (DetailedFilter in data ==>
        var f := data[DetailedFilter];
        f.Object? && f.fields.Keys == {Page, PageSize} &&
        f.fields[Page] == (if Page in args then args[Page] else Number(1)) &&
        f.fields[PageSize] == (if PageSize in args then args[PageSize] else Number(50)))
  {
  }

  /** The billable and sort-order members reach the service only with one of their enumerated values. */
  lemma DetailedReportEnums(args: Fields)
    requires DetailedReportSchema(args)
    ensures SentFromEnums(DetailedReport(args).data)
  {
    DetailedReportForwards(args);
    assert ReportKind(Billable) == OneOf(BillableFilters);
    assert ReportKind(SortOrder) == OneOf(SortOrders);
  }

  /** Each entity filter given to `get_detailed_report` is sent, and only then, in the filter shape. */
  lemma DetailedEntityFilter(args: Fields, k: Key)
    requires DetailedReportSchema(args) && k in EntityFilters
    ensures EntityFilterSent(args, DetailedReport(args).data, k)
  {
    var data := DetailedReport(args).data;
    assert k in data <==> k in args;
    if k in args {
      assert data[k] == args[k];
      FilterMemberKind(args, k);
    }
  }

  // get_summary_report

  predicate SummaryReportSchema(args: Fields)
    ensures SummaryReportSchema(args) ==> WorkspaceId in args && DateRangeStart in args && DateRangeEnd in args && args[WorkspaceId].String? && args[DateRangeStart].String? && args[DateRangeEnd].String?
  {
    assert ReportKind(WorkspaceId) == ReportKind(DateRangeStart) == ReportKind(DateRangeEnd) == Text;
    && Conforms(args, Shape(ReportRequired, ReportOptional + {SortOrder, Groups}))
    && forall k {:trigger ReportKind(k)} | k in args :: HasKind(args[k], ReportKind(k))
  }

  /** `groups ? { groups } : undefined`. */
  function SummaryFilterOf(groups: Option<Json>): Option<Json> {
    if groups.Some? && Truthy(groups.value) then Some(Object(map[Groups := groups.value])) else None
  }

  /** `get_summary_report`: `groups` never appears at top level, the workspace id only in the path. */
  function SummaryReport(args: Fields): (op: Operation)
    requires SummaryReportSchema(args)
    ensures op.GetSummaryReport? && op.workspaceId == args[WorkspaceId].s
    ensures WorkspaceId !in op.data && Groups !in op.data
  {
    var params := args - {WorkspaceId, Groups};
    GetSummaryReport(args[WorkspaceId].s, With(params, SummaryFilter, SummaryFilterOf(Lookup(args, Groups))))
  }

  /** Every other member of the input is forwarded as it is. */
  lemma SummaryReportForwards(args: Fields)
    requires SummaryReportSchema(args)
    ensures var data := SummaryReport(args).data;
      forall k :: k !in {WorkspaceId, Groups, SummaryFilter} ==> Carries(data, k, Lookup(args, k))
  {
  }

  /**
   * `summaryFilter` is sent exactly when `groups` is given, even as an empty
   * list, since an array is always truthy.
   */
  lemma SummaryFilterPresent(args: Fields)
    requires SummaryReportSchema(args)
    ensures SummaryFilter in SummaryReport(args).data <==> Groups in args
  {
    if Groups in args {
      assert ReportKind(Groups) == TextList;
      assert IsTextList(args[Groups]);
    }
  }

  /** When sent, `summaryFilter` is `{ groups }`. */
  lemma SummaryFilterHoldsGroups(args: Fields)
    requires SummaryReportSchema(args) && Groups in args
    ensures var data := SummaryReport(args).data;
      SummaryFilter in data && data[SummaryFilter] == Object(map[Groups := args[Groups]])
  {
    assert ReportKind(Groups) == TextList;
    assert IsTextList(args[Groups]);
  }

  /** The summary report sends `billable` and `sortOrder` only from their enumerations. */
  lemma SummaryReportEnums(args: Fields)
    requires SummaryReportSchema(args)
    ensures SentFromEnums(SummaryReport(args).data)
  {
    SummaryReportForwards(args);
    assert ReportKind(Billable) == OneOf(BillableFilters);
    assert ReportKind(SortOrder) == OneOf(SortOrders);
  }

  /** Each entity filter given to `get_summary_report` is sent, and only then, in the filter shape. */
  lemma SummaryEntityFilter(args: Fields, k: Key)
    requires SummaryReportSchema(args) && k in EntityFilters
    ensures EntityFilterSent(args, SummaryReport(args).data, k)
  {
    var data := SummaryReport(args).data;
    assert k in data <==> k in args;
    if k in args {
      assert data[k] == args[k];
      FilterMemberKind(args, k);
    }
  }

  // get_weekly_report

  /** The weekly schema has `group` and `subgroup`, and no `sortOrder`. */
  predicate WeeklyReportSchema(args: Fields)
    ensures WeeklyReportSchema(args) ==> WorkspaceId in args && DateRangeStart in args && DateRangeEnd in args && args[WorkspaceId].String? && args[DateRangeStart].String? && args[DateRangeEnd].String?
  {
    assert ReportKind(WorkspaceId) == ReportKind(DateRangeStart) == ReportKind(DateRangeEnd) == Text;
    && Conforms(args, Shape(ReportRequired, ReportOptional + {Group, Subgroup}))
    && forall k {:trigger ReportKind(k)} | k in args :: HasKind(args[k], ReportKind(k))
  }

  /** `group ? { group, subgroup } : undefined`. */
  function WeeklyFilterOf(group: Option<Json>, subgroup: Option<Json>): Option<Json> {
    if group.Some? && Truthy(group.value) then Some(Object(With(map[Group := group.value], Subgroup, subgroup))) else None
  }

  /**
   * `get_weekly_report`: `group` and `subgroup` never appear at top level, the
   * workspace id only in the path.
   */
  function WeeklyReport(args: Fields): (op: Operation)
    requires WeeklyReportSchema(args)
    ensures op.GetWeeklyReport? && op.workspaceId == args[WorkspaceId].s
    ensures WorkspaceId !in op.data && Group !in op.data && Subgroup !in op.data
  {
    var params := args - {WorkspaceId, Group, Subgroup};
    GetWeeklyReport(args[WorkspaceId].s,
      With(params, WeeklyFilter, WeeklyFilterOf(Lookup(args, Group), Lookup(args, Subgroup))))
  }

  /** Every other member of the input is forwarded as it is. */
  lemma WeeklyReportForwards(args: Fields)
    requires WeeklyReportSchema(args)
    ensures var data := WeeklyReport(args).data;
      forall k :: k !in {WorkspaceId, Group, Subgroup, WeeklyFilter} ==> Carries(data, k, Lookup(args, k))
  {
  }

  /**
   * `weeklyFilter` is sent exactly when `group` is a non-empty string; a
   * `subgroup` without a `group` is dropped.
   */
  lemma WeeklyFilterPresent(args: Fields)
    requires WeeklyReportSchema(args)
    ensures WeeklyFilter in WeeklyReport(args).data <==> Group in args && args[Group] != String("")
  {
    if Group in args {
      assert ReportKind(Group) == Text;
      assert args[Group].String?;
    }
  }

  /** When sent, `weeklyFilter` holds `group` and, if given, `subgroup`, and nothing else. */
  lemma WeeklyFilterHoldsGroups(args: Fields)
    requires WeeklyReportSchema(args) && Group in args && args[Group] != String("")
    ensures var data := WeeklyReport(args).data;
      WeeklyFilter in data && data[WeeklyFilter].Object? &&
      var f := data[WeeklyFilter].fields;
      Group in f && f.Keys <= {Group, Subgroup} && f[Group] == args[Group] &&
      Carries(f, Subgroup, Lookup(args, Subgroup))
  {
    assert ReportKind(Group) == Text;
    assert args[Group].String?;
  }

  /** The weekly report sends `billable` only from its enumeration, and never a `sortOrder`. */
  lemma WeeklyReportEnums(args: Fields)
    requires WeeklyReportSchema(args)
    ensures SentFromEnums(WeeklyReport(args).data) && SortOrder !in WeeklyReport(args).data
  {
    WeeklyReportForwards(args);
    assert ReportKind(Billable) == OneOf(BillableFilters);
  }

  /** Each entity filter given to `get_weekly_report` is sent, and only then, in the filter shape. */
  lemma WeeklyEntityFilter(args: Fields, k: Key)
    requires WeeklyReportSchema(args) && k in EntityFilters
    ensures EntityFilterSent(args, WeeklyReport(args).data, k)
  {
    var data := WeeklyReport(args).data;
    assert k in data <==> k in args;
    if k in args {
      assert data[k] == args[k];
      FilterMemberKind(args, k);
    }
  }

  // list_shared_reports

  /** `list_shared_reports`: a GET on the reports API naming only the workspace. */
  function SharedReports(workspaceId: string): (op: Operation)
    ensures ApiOf(op) == ReportsApi && VerbOf(op) == Get
    ensures SegmentsOf(op) == ["workspaces", workspaceId, "shared-reports"]
    ensures forall clock :: PayloadOf(op, clock) == NoPayload
  {
    GetSharedReports(workspaceId)
  }
}

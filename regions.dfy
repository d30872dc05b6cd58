/**
 * The region tables of the client and the configuration it is built from
 * (`API_REGIONS`, `REPORTS_REGIONS`, `createClockifyClient`).
 */
module Regions {
  import opened Wrappers

  datatype Region = Global | Euc1 | Use2 | Euw2 | Apse2

  /** The region's code, as written in the configuration. */
  function Code(r: Region): string {
    match r
    case Global => "global"
    case Euc1 => "euc1"
    case Use2 => "use2"
    case Euw2 => "euw2"
    case Apse2 => "apse2"
  }

  /** The region a code names, if it names one; `Code` is its inverse. */
  function FromCode(code: string): (r: Option<Region>)
    ensures r.Some? ==> Code(r.value) == code
  {
    if code == "global" then Some(Global)
    else if code == "euc1" then Some(Euc1)
    else if code == "use2" then Some(Use2)
    else if code == "euw2" then Some(Euw2)
    else if code == "apse2" then Some(Apse2)
    else None
  }

  lemma CodeRoundTrip(r: Region)
    ensures FromCode(Code(r)) == Some(r)
  {
  }

  /** `API_REGIONS`: the entity API's base URL per region. */
  function ApiBase(r: Region): string {
    match r
    case Global => "https://api.clockify.me/api/v1"
    case Euc1 => "https://euc1.clockify.me/api/v1"
    case Use2 => "https://use2.clockify.me/api/v1"
    case Euw2 => "https://euw2.clockify.me/api/v1"
    case Apse2 => "https://apse2.clockify.me/api/v1"
  }

  /** `REPORTS_REGIONS`: the reports API's base URL per region. */
  function ReportsBase(r: Region): string {
    match r
    case Global => "https://reports.api.clockify.me/v1"
    case Euc1 => "https://euc1.reports.api.clockify.me/v1"
    case Use2 => "https://use2.reports.api.clockify.me/v1"
    case Euw2 => "https://euw2.reports.api.clockify.me/v1"
    case Apse2 => "https://apse2.reports.api.clockify.me/v1"
  }

  /** No two regions share a base URL, in either table. */
  lemma TablesInjective(r1: Region, r2: Region)
    ensures ApiBase(r1) == ApiBase(r2) ==> r1 == r2
    ensures ReportsBase(r1) == ReportsBase(r2) ==> r1 == r2
  {
    // The eleventh character already tells the regions apart in both tables.
    ApiMarkAt(r1);
    ApiMarkAt(r2);
    ReportsMarkAt(r1);
    ReportsMarkAt(r2);
  }

  lemma ApiMarkAt(r: Region)
    ensures |ApiBase(r)| > 10 && ApiBase(r)[10] == HostMark(r)
  {
    match r
    case Global =>
    case Euc1 =>
    case Use2 =>
    case Euw2 =>
    case Apse2 =>
  }

  lemma ReportsMarkAt(r: Region)
    ensures |ReportsBase(r)| > 10 && ReportsBase(r)[10] == ReportsMark(r)
  {
    match r
    case Global =>
    case Euc1 =>
    case Use2 =>
    case Euw2 =>
    case Apse2 =>
  }

  function HostMark(r: Region): char {
    match r
    case Global => 'i'
    case Euc1 => 'c'
    case Use2 => 'e'
    case Euw2 => 'w'
    case Apse2 => 's'
  }

  function ReportsMark(r: Region): char {
    if r == Global then 'p' else HostMark(r)
  }

  /** The environment the client factory reads (`undefined` is `None`). */
  datatype Environment = Environment(apiKey: Option<string>, region: Option<string>, workspaceId: Option<string>)

  /** `ClockifyConfig`; the region is kept as the string it was cast from. */
  datatype Config = Config(apiKey: string, region: string, workspaceId: Option<string>)

  const MissingApiKey := "CLOCKIFY_API_KEY environment variable is required"

  /** JavaScript truthiness of an optional string: defined and not empty. */
  predicate TruthyText(s: Option<string>) {
    s.Some? && s.value != ""
  }

  /** `createClockifyClient`: checks the API key and defaults the region. */
  function CreateClockifyClient(env: Environment): (r: Result<Config, string>)
    ensures r.Err? <==> !TruthyText(env.apiKey)
    ensures r.Err? ==> r.error == MissingApiKey
    ensures r.Ok? ==> r.value.apiKey == env.apiKey.value && r.value.workspaceId == env.workspaceId
    ensures r.Ok? && TruthyText(env.region) ==> r.value.region == env.region.value
    ensures r.Ok? && !TruthyText(env.region) ==> r.value.region == Code(Euc1)
  {
    if !TruthyText(env.apiKey) then Err(MissingApiKey)
    else
      var region := if TruthyText(env.region) then env.region.value else "euc1";
      Ok(Config(env.apiKey.value, region, env.workspaceId))
  }

  /** `API_REGIONS[config.region]`: undefined when the cast string is not a region code. */
  function ApiBaseOf(config: Config): (u: Option<string>)
    ensures u.Some? <==> FromCode(config.region).Some?
    ensures u.Some? ==> u.value == ApiBase(FromCode(config.region).value)
  {
    match FromCode(config.region)
    case Some(r) => Some(ApiBase(r))
    case None => None
  }

  /** `REPORTS_REGIONS[config.region]`, likewise. */
  function ReportsBaseOf(config: Config): (u: Option<string>)
    ensures u.Some? <==> FromCode(config.region).Some?
    ensures u.Some? ==> u.value == ReportsBase(FromCode(config.region).value)
  {
    match FromCode(config.region)
    case Some(r) => Some(ReportsBase(r))
    case None => None
  }

  /**
   * A client built from an environment with a key but no region talks to the
   * euc1 hosts; one built with a supported code talks to that region's hosts
   * in both APIs.
   */
  lemma FactoryBaseUrls(env: Environment)
    requires TruthyText(env.apiKey)
    ensures CreateClockifyClient(env).Ok?
    ensures !TruthyText(env.region) ==>
      ApiBaseOf(CreateClockifyClient(env).value) == Some("https://euc1.clockify.me/api/v1") &&
      ReportsBaseOf(CreateClockifyClient(env).value) == Some("https://euc1.reports.api.clockify.me/v1")
    ensures forall r: Region :: env.region == Some(Code(r)) ==>
      ApiBaseOf(CreateClockifyClient(env).value) == Some(ApiBase(r)) &&
      ReportsBaseOf(CreateClockifyClient(env).value) == Some(ReportsBase(r))
  {
    forall r: Region | env.region == Some(Code(r))
      ensures ApiBaseOf(CreateClockifyClient(env).value) == Some(ApiBase(r))
    {
      CodeRoundTrip(r);
    }
  }

  /** The default region's pair of hosts, as the tables give them. */
  lemma Euc1BaseUrls(apiKey: string, workspaceId: Option<string>)
    ensures ApiBaseOf(Config(apiKey, "euc1", workspaceId)) == Some("https://euc1.clockify.me/api/v1")
    ensures ReportsBaseOf(Config(apiKey, "euc1", workspaceId)) == Some("https://euc1.reports.api.clockify.me/v1")
  {
  }

  /** An unknown region string is not rejected: it yields no base URL for either API. */
  lemma UnknownRegionUnchecked(env: Environment)
    requires TruthyText(env.apiKey) && TruthyText(env.region)
    requires forall r: Region :: env.region.value != Code(r)
    ensures CreateClockifyClient(env).Ok?
    ensures ApiBaseOf(CreateClockifyClient(env).value) == None
    ensures ReportsBaseOf(CreateClockifyClient(env).value) == None
  {
  }
}

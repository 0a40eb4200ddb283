/**
 * The dispatcher behind tools/call: it normalises the arguments, routes the
 * tool name to its handler, and turns the handler's outcome into a
 * single-text-item tool result. No exception escapes: every failure becomes
 * an error result.
 */
module ToolService {
  import opened Wrappers
  import opened JavaLang
  import opened Arguments
  import opened Backend
  import opened McpResponse
  import opened ToolCatalog
  import opened ArgumentNormalizer
  import UserService
  import OrganizationService
  import SyncService
  import MonitoringService
  import AccountManagement

  /** The registered handlers, one per catalog entry. */
  datatype Tool =
    | GetUserById | GetUserOrganizations | GetUserCuiMetadata
    | GetOrganizationDetails | GetCuiTenantDetails | CheckTenantControlEnabled | GetTenantMappingStatus
    | GetSyncRetryStatus | GetSyncMetrics
    | GetUserRegions
    | GetServiceHealth | GetSyncStatistics | GetKafkaStreamStatus | GetDatabaseConnectivity | GetExternalServiceStatus

  /** The catalog position of each handler's tool. */
  function CatalogIndex(t: Tool): (i: nat)
    ensures i < |CatalogNames|
  {
    match t
    case GetUserById => 0
    case GetUserOrganizations => 1
    case GetUserCuiMetadata => 2
    case GetOrganizationDetails => 3
    case GetCuiTenantDetails => 4
    case CheckTenantControlEnabled => 5
    case GetTenantMappingStatus => 6
    case GetSyncRetryStatus => 7
    case GetSyncMetrics => 8
    case GetUserRegions => 9
    case GetServiceHealth => 10
    case GetSyncStatistics => 11
    case GetKafkaStreamStatus => 12
    case GetDatabaseConnectivity => 13
    case GetExternalServiceStatus => 14
  }

  /** The name a handler is registered under. */
  function ToolName(t: Tool): string {
    CatalogNames[CatalogIndex(t)]
  }

  /** The switch of `executeTool`: the handler registered under a name, if any. */
  function Route(name: string): (t: Option<Tool>)
    ensures t.Some? ==> ToolName(t.value) == name
  {
    match name
    case "get_user_by_id" => Some(GetUserById)
    case "get_user_organizations" => Some(GetUserOrganizations)
    case "get_user_cui_metadata" => Some(GetUserCuiMetadata)
    case "get_organization_details" => Some(GetOrganizationDetails)
    case "get_cui_tenant_details" => Some(GetCuiTenantDetails)
    case "check_tenant_control_enabled" => Some(CheckTenantControlEnabled)
    case "get_tenant_mapping_status" => Some(GetTenantMappingStatus)
    case "get_sync_retry_status" => Some(GetSyncRetryStatus)
    case "get_sync_metrics" => Some(GetSyncMetrics)
    case "get_user_regions" => Some(GetUserRegions)
    case "get_service_health" => Some(GetServiceHealth)
    case "get_sync_statistics" => Some(GetSyncStatistics)
    case "get_kafka_stream_status" => Some(GetKafkaStreamStatus)
    case "get_database_connectivity" => Some(GetDatabaseConnectivity)
    case "get_external_service_status" => Some(GetExternalServiceStatus)
    case _ => None
  }

  /**
   * Routing is total and closed over the catalog: a name has a handler
   * exactly when tools/list reports it, and each handler has one name.
   */
  lemma RoutingMatchesCatalog(name: string)
    ensures Route(name).Some? <==> name in CatalogNames
  {
    if name in CatalogNames {
      var i :| 0 <= i < |CatalogNames| && CatalogNames[i] == name;
      assert Route(CatalogNames[i]).Some?;
    }
  }

  /** Each handler is reached through the name it is registered under. */
  lemma RouteInvertsToolName(t: Tool)
    ensures Route(ToolName(t)) == Some(t)
  {
  }

  /** No two handlers share a name. */
  lemma ToolNamesDistinct(t1: Tool, t2: Tool)
    ensures ToolName(t1) == ToolName(t2) ==> t1 == t2
  {
    CatalogIsFixed();
    var tools := AvailableTools();
    assert ToolNames(tools)[CatalogIndex(t1)] == CatalogNames[CatalogIndex(t1)];
    assert ToolNames(tools)[CatalogIndex(t2)] == CatalogNames[CatalogIndex(t2)];
  }

  /** What a handler can return; the dispatcher serialises it without looking inside. */
  datatype Payload =
    | User(user: UserService.UserDto)
    | Organizations(organizations: seq<UserService.UserOrganization>)
    | Organization(organization: OrganizationService.OrganizationDto)
    | TenantDetails(body: Body)
    | TenantControl(report: OrganizationService.TenantControlReport)
    | RetryStatus(page: SyncService.RetryStatusPage)
    | Metrics(metrics: SyncService.SyncMetrics)
    | Regions(regions: AccountManagement.UserRegionsDto)
    | Health(health: MonitoringService.ServiceHealth)
    | Statistics(statistics: MonitoringService.StatisticsReport)
    | Kafka(kafka: MonitoringService.KafkaStatus)
    | DatabaseReport(database: MonitoringService.DatabaseHealth)
    | ExternalReport(external: MonitoringService.ExternalStatus)

  /** Every backend the handlers reach, as the outcomes of one tool call. */
  datatype Env = Env(
    users: UserService.UserStore,
    organizations: OrganizationService.OrgBackend,
    sync: SyncService.SyncStore,
    database: MonitoringService.DatabaseProbe,
    integrationHealth: MonitoringService.HealthCall,
    statistics: Int32 -> Reply<MonitoringService.SyncStatistics>,
    regions: string -> Reply<AccountManagement.RegionResponse>)

  /** A handler's outcome: a result (None is Java's null) or the exception it threw. */
  type Outcome = Result<Option<Payload>, Failure>

  function Returned<T>(r: Result<T, Failure>, wrap: T -> Payload): (o: Outcome)
    ensures r.Err? <==> o.Err?
    ensures r.Err? ==> o.error == r.error
    ensures r.Ok? ==> o == Ok(Some(wrap(r.value)))
  {
    match r
    case Ok(v) => Ok(Some(wrap(v)))
    case Err(e) => Err(e)
  }

  /** The payload kind each handler's Java return type allows. */
  predicate Produces(t: Tool, p: Payload) {
    match t
    case GetUserById => p.User?
    case GetUserOrganizations => p.Organizations?
    case GetUserCuiMetadata => p.User?
    case GetOrganizationDetails => p.Organization?
    case GetCuiTenantDetails => p.TenantDetails?
    case CheckTenantControlEnabled => p.TenantControl?
    case GetTenantMappingStatus => p.Organization?
    case GetSyncRetryStatus => p.RetryStatus?
    case GetSyncMetrics => p.Metrics?
    case GetUserRegions => p.Regions?
    case GetServiceHealth => p.Health?
    case GetSyncStatistics => p.Statistics?
    case GetKafkaStreamStatus => p.Kafka?
    case GetDatabaseConnectivity => p.DatabaseReport?
    case GetExternalServiceStatus => p.ExternalReport?
  }

  /**
   * Runs a handler on already-normalised arguments. A value is of the
   * handler's own kind; only the tenant-details handler can return null;
   * the three probes that catch everything never throw; and the corrected
   * tenant-control check throws only on a bad `org_id`.
   */
  function RunHandler(t: Tool, args: Args, env: Env): (o: Outcome)
    ensures o.Ok? && o.value.Some? ==> Produces(t, o.value.value)
    ensures o.Ok? && o.value.None? ==> t == GetCuiTenantDetails
    ensures t == GetServiceHealth || t == GetKafkaStreamStatus || t == GetDatabaseConnectivity ==> o.Ok?
    ensures t == CheckTenantControlEnabled ==> (o.Err? <==> OrganizationService.GetLongArgument(args, "org_id").Err?)
  {
    match t
    case GetUserById => Returned(UserService.GetUserById(args, env.users), u => User(u))
    case GetUserOrganizations => Returned(UserService.GetUserOrganizations(args, env.users), os => Organizations(os))
    case GetUserCuiMetadata => Returned(UserService.GetUserCuiMetadata(args, env.users), u => User(u))
    case GetOrganizationDetails =>
      Returned(OrganizationService.GetOrganizationDetails(args, env.organizations), o => Organization(o))
    case GetCuiTenantDetails =>
      (match OrganizationService.GetCuiTenantDetails(args, env.organizations)
       case Ok(Some(body)) => Ok(Some(TenantDetails(body)))
       case Ok(None) => Ok(None)
       case Err(e) => Err(e))
    case CheckTenantControlEnabled =>
      Returned(OrganizationService.CheckTenantControlEnabled(args, env.organizations), r => TenantControl(r))
    case GetTenantMappingStatus =>
      Returned(OrganizationService.GetTenantMappingStatus(args, env.organizations), o => Organization(o))
    case GetSyncRetryStatus => Returned(SyncService.GetSyncRetryStatus(args, env.sync), p => RetryStatus(p))
    case GetSyncMetrics => Returned(SyncService.GetSyncMetrics(args, env.sync), m => Metrics(m))
    case GetUserRegions => Returned(AccountManagement.GetUserRegions(args, env.regions), r => Regions(r))
    case GetServiceHealth => Ok(Some(Health(MonitoringService.GetServiceHealth(env.database, env.integrationHealth))))
    case GetSyncStatistics => Returned(MonitoringService.GetSyncStatistics(args, env.statistics), s => Statistics(s))
    case GetKafkaStreamStatus => Ok(Some(Kafka(MonitoringService.GetKafkaStreamStatus(args))))
    case GetDatabaseConnectivity => Ok(Some(DatabaseReport(MonitoringService.GetDatabaseConnectivity(args, env.database))))
    case GetExternalServiceStatus =>
      Returned(MonitoringService.GetExternalServiceStatus(args, env.integrationHealth), s => ExternalReport(s))
  }

  /** The switch's default branch. */
  function UnknownTool(name: string): Failure {
    IllegalArgument("Unknown tool: " + name)
  }

  /** The `try` body of `executeTool` up to the handler's return: normalise, route, run. */
  function Dispatch(name: string, args: Args, env: Env): (o: Outcome)
    ensures Route(name).None? ==> o == Err(UnknownTool(name))
    ensures Route(name).Some? ==> o == RunHandler(Route(name).value, MapArgumentsForTool(name, args), env)
  {
    var mapped := MapArgumentsForTool(name, args);
    match Route(name)
    case None => Err(UnknownTool(name))
    case Some(t) => RunHandler(t, mapped, env)
  }

  const SuccessText: string := "Operation completed successfully"

  /** `formatResult`: a fixed text for a null result, the serialised result otherwise. */
  function FormatResult(result: Option<Payload>, serialize: Payload -> string): (text: string)
    ensures result.None? ==> text == SuccessText
    ensures result.Some? ==> text == serialize(result.value)
  {
    match result
    case None => SuccessText
    case Some(p) => serialize(p)
  }

  /**
   * `executeTool`. The serialiser stands for Jackson's `writeValueAsString`.
   */
  function ExecuteTool(name: string, args: Args, env: Env, serialize: Payload -> string): (r: ToolResult)
    ensures |r.content| == 1 && r.content[0].kind == "text"
    ensures r.isError <==> Dispatch(name, args, env).Err?
    ensures r.isError ==> r.content[0].text == "Error: " + Dispatch(name, args, env).error.Text()
    ensures !r.isError ==> r.content[0].text == FormatResult(Dispatch(name, args, env).value, serialize)
  {
    match Dispatch(name, args, env)
    case Ok(result) => TextResult(FormatResult(result, serialize), false)
    case Err(e) => TextResult("Error: " + e.Text(), true)
  }

  /** A name outside the catalog, including every unregistered handler's name, is reported, not thrown. */
  lemma UnknownToolReported(name: string, args: Args, env: Env, serialize: Payload -> string)
    requires name !in CatalogNames
    ensures ExecuteTool(name, args, env, serialize) == TextResult("Error: Unknown tool: " + name, true)
  {
    RoutingMatchesCatalog(name);
    assert "Error: " + ("Unknown tool: " + name) == "Error: Unknown tool: " + name;
  }

  /**
   * For every tool with a target parameter, `{identifier: x}` behaves exactly
   * like the target parameter `x` itself, e.g. `{org_id: x}` for the
   * organization tools.
   */
  lemma IdentifierEquivalence(name: string, args: Args, x: Value, env: Env, serialize: Payload -> string)
    requires TargetKey(name).Some?
    requires IdentifierKey !in args
    ensures ExecuteTool(name, args[IdentifierKey := x], env, serialize) ==
            ExecuteTool(name, args[TargetKey(name).value := x], env, serialize)
  {
    IdentifierActsAsTarget(name, args, x);
  }

  /** The dispatch step of `MissingOrgIdReported`: the handler's argument error comes back unchanged. */
  lemma MissingOrgIdDispatched(args: Args, env: Env)
    requires IdentifierKey !in args && Get(args, "org_id").None?
    ensures Dispatch("get_organization_details", args, env) ==
            Err(IllegalArgument(OrganizationService.MissingArgumentMessage("org_id")))
  {
    var failure := IllegalArgument(OrganizationService.MissingArgumentMessage("org_id"));
    assert OrganizationService.GetOrganizationDetails(args, env.organizations) == Err(failure);
    assert RunHandler(GetOrganizationDetails, args, env) == Err(failure);
    assert MapArgumentsForTool("get_organization_details", args) == args;
    assert Route("get_organization_details") == Some(GetOrganizationDetails);
  }

  /**
   * Without an organization id (absent or null, and no `identifier` to stand
   * in for it), the organization tool reports the missing argument:
   * "Error: Required argument 'org_id' is missing".
   */
  lemma MissingOrgIdReported(args: Args, env: Env, serialize: Payload -> string)
    requires IdentifierKey !in args && Get(args, "org_id").None?
    ensures ExecuteTool("get_organization_details", args, env, serialize) ==
            TextResult("Error: " + OrganizationService.MissingArgumentMessage("org_id"), true)
  {
    MissingOrgIdDispatched(args, env);
  }

  /** An empty tenant-details body is a null result, reported as success with the fixed text. */
  lemma EmptyTenantDetails(n: Int64, env: Env, serialize: Payload -> string)
    requires env.organizations.tenantControl(n) == Ok(None)
    ensures ExecuteTool("get_cui_tenant_details", map[IdentifierKey := Num(n)], env, serialize) ==
            TextResult(SuccessText, false)
  {
    var mapped := MapArgumentsForTool("get_cui_tenant_details", map[IdentifierKey := Num(n)]);
    assert mapped == map["org_id" := Num(n)];
  }

  /** `get_user_regions` with `{identifier: e}` asks the RPC about `e` and reports its regions. */
  lemma UserRegionsByIdentifier(e: string, env: Env, serialize: Payload -> string)
    requires env.regions(e).Ok?
    ensures var response := env.regions(e).value;
      ExecuteTool("get_user_regions", map[IdentifierKey := Str(e)], env, serialize) ==
      TextResult(serialize(Regions(AccountManagement.UserRegionsDto(
        Some(e), Some(response.regionIdList), |response.regionIdList|, Some(response.defaultRegionId)))), false)
  {
    var mapped := MapArgumentsForTool("get_user_regions", map[IdentifierKey := Str(e)]);
    assert mapped == map["email" := Str(e)];
  }

  /** `get_user_by_id` with an email identifier looks the user up by email, enriched by default. */
  lemma UserByEmailIdentifier(s: string, i: nat, env: Env, serialize: Payload -> string)
    requires i < |s| && !IsDigit(s[i]) && s[i] != '-' && s[i] != '+'
    ensures var args := map[IdentifierKey := Str(s)];
      Dispatch("get_user_by_id", args, env) ==
      Returned(UserService.FindUser(env.users.byEmail(Some(s)), Some(true), env.users), u => User(u))
  {
    var args := map[IdentifierKey := Str(s)];
    UserService.EmailIdentifierLooksUpEmail(args, env.users, s, i);
  }

  /** The health tool never fails, and reports UP exactly when both probes succeed. */
  lemma ServiceHealthVerdict(args: Args, env: Env, serialize: Payload -> string)
    ensures var health := MonitoringService.GetServiceHealth(env.database, env.integrationHealth);
      && ExecuteTool("get_service_health", args, env, serialize) == TextResult(serialize(Health(health)), false)
      && (health.status == "UP" <==> MonitoringService.DatabaseReachable(env.database) && env.integrationHealth.Ok?)
  {
    MonitoringService.HealthVerdict(env.database, env.integrationHealth);
  }
}

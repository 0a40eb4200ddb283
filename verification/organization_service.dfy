/**
 * The organization handlers: organization details, CUI tenant details,
 * the tenant-control check and the tenant-mapping status. All of them read
 * the organization id from `org_id`, which this handler group requires.
 */
module OrganizationService {
  import opened Wrappers
  import opened JavaLang
  import opened Arguments
  import opened Backend

  datatype OrganizationDto = OrganizationDto(
    orgId: Int64,
    orgName: Option<string>,
    cuiMigrationFlag: Option<bool>,
    createTime: Option<Int64>,
    deleteTime: Option<Int64>,
    cuiTenantId: Option<string>,
    cuiOrgId: Option<string>,
    cuiClusterUrl: Option<string>,
    mappingStatus: Option<string>,
    mappingCreateTime: Option<Int64>,
    cuiTenantControlEnabled: Option<bool>,
    integrationStage: Option<Int32>,
    phase2FeatureFlagEnabled: Option<bool>)

  /** The backend calls of the organization handlers. */
  datatype OrgBackend = OrgBackend(
    // the organization joined with its tenant mapping
    details: Int64 -> Reply<OrganizationDto>,
    // the most recent tenant-mapping row of an organization
    latestMapping: Int64 -> Reply<OrganizationDto>,
    // how many rows of feature 1073 the query's row mapper saw for an organization
    featureFlagRows: Int64 -> Reply<nat>,
    // GET of the tenant-control-enabled endpoint; None is an empty body
    tenantControl: Int64 -> Reply<Option<Body>>)

  /** The feature whose flag marks an organization as being in phase 2. */
  const Phase2FeatureId: int := 1073

  const TenantDetailsPrefix: string := "Failed to get CUI tenant details: "

  function MissingArgumentMessage(key: string): string {
    "Required argument '" + key + "' is missing"
  }

  /**
   * `getLongArgument` of this handler group: unlike the user and sync
   * handlers, a missing argument is an IllegalArgumentException.
   */
  function GetLongArgument(args: Args, key: string): (r: Result<Int64, Failure>)
    ensures Get(args, key).None? ==> r == Err(IllegalArgument(MissingArgumentMessage(key)))
    ensures key in args && args[key].Num? ==> r == Ok(Wrap64(args[key].n))
    ensures Get(args, key).Some? && !args[key].Num? ==>
      match ParseLong(ToJavaString(args[key]))
      case Some(v) => r == Ok(v)
      case None => r == Err(NumberFormat(ToJavaString(args[key])))
  {
    match Get(args, key)
    case None => Err(IllegalArgument(MissingArgumentMessage(key)))
    case Some(v) =>
      if v.Num? then Ok(Wrap64(v.n))
      else match ParseLong(ToJavaString(v))
        case Some(n) => Ok(n)
        case None => Err(NumberFormat(ToJavaString(v)))
  }

  /** `{org_id: 42}` and `{org_id: "42"}` name the same organization. */
  lemma NumberAndDecimalAgree(key: string, n: Int64)
    ensures GetLongArgument(map[key := Num(n)], key) == Ok(n)
    ensures GetLongArgument(map[key := Str(IntToDecimal(n))], key) == Ok(n)
  {
    ParseLongOfDecimal(n);
  }

  /** `{org_id: "abc"}`: a string with a non-digit is a number-format error, distinct from a missing id. */
  lemma NonNumeralIsFormatError(key: string, s: string, i: nat)
    requires i < |s| && !IsDigit(s[i]) && s[i] != '-' && s[i] != '+'
    ensures GetLongArgument(map[key := Str(s)], key) == Err(NumberFormat(s))
  {
    ForeignCharacterNeverParses(s, i, MinLong, MaxLong);
  }

  /**
   * `enrichWithFeatureFlag`: the row mapper marks the organization for every
   * feature-1073 row it sees; a failed query (no row included) is swallowed.
   */
  function EnrichWithFeatureFlag(org: OrganizationDto, rows: Reply<nat>): (r: OrganizationDto)
    ensures r.(phase2FeatureFlagEnabled := org.phase2FeatureFlagEnabled) == org
    ensures rows.Ok? && rows.value > 0 ==> r.phase2FeatureFlagEnabled == Some(true)
    ensures rows.Err? || rows.value == 0 ==> r == org
  {
    match rows
    case Ok(n) => if n > 0 then org.(phase2FeatureFlagEnabled := Some(true)) else org
    case Err(_) => org
  }

  /** The flag query is keyed by the id of the row that was found. */
  function WithFeatureFlag(org: OrganizationDto, api: OrgBackend): OrganizationDto {
    EnrichWithFeatureFlag(org, api.featureFlagRows(org.orgId))
  }

  /** `getOrganizationDetails`. */
  function GetOrganizationDetails(args: Args, api: OrgBackend): (r: Result<OrganizationDto, Failure>)
    ensures GetLongArgument(args, "org_id").Err? ==> r == Err(GetLongArgument(args, "org_id").error)
    ensures GetLongArgument(args, "org_id").Ok? ==>
      var found := api.details(GetLongArgument(args, "org_id").value);
      && (found.Err? ==> r == Err(Failure.Backend(found.error)))
      && (found.Ok? ==> r == Ok(WithFeatureFlag(found.value, api)))
  {
    var orgId :- GetLongArgument(args, "org_id");
    var org :- Raised(api.details(orgId));
    Ok(WithFeatureFlag(org, api))
  }

  /** `getTenantMappingStatus`. */
  function GetTenantMappingStatus(args: Args, api: OrgBackend): (r: Result<OrganizationDto, Failure>)
    ensures GetLongArgument(args, "org_id").Err? ==> r == Err(GetLongArgument(args, "org_id").error)
    ensures GetLongArgument(args, "org_id").Ok? ==>
      var found := api.latestMapping(GetLongArgument(args, "org_id").value);
      && (found.Err? ==> r == Err(Failure.Backend(found.error)))
      && (found.Ok? ==> r == Ok(WithFeatureFlag(found.value, api)))
  {
    var orgId :- GetLongArgument(args, "org_id");
    var org :- Raised(api.latestMapping(orgId));
    Ok(WithFeatureFlag(org, api))
  }

  /**
   * `getCuiTenantDetails`: the body as the service returned it (None for an
   * empty one); a failed call is rethrown with a prefix, while an argument
   * error, raised before the call, is not.
   */
  function GetCuiTenantDetails(args: Args, api: OrgBackend): (r: Result<Option<Body>, Failure>)
    ensures GetLongArgument(args, "org_id").Err? ==> r == Err(GetLongArgument(args, "org_id").error)
    ensures GetLongArgument(args, "org_id").Ok? ==>
      var reply := api.tenantControl(GetLongArgument(args, "org_id").value);
      && (reply.Ok? ==> r == Ok(reply.value))
      && (reply.Err? ==> r == Err(Runtime(TenantDetailsPrefix + reply.error)))
  {
    var orgId :- GetLongArgument(args, "org_id");
    match api.tenantControl(orgId)
    case Ok(body) => Ok(body)
    case Err(m) => Err(Runtime(TenantDetailsPrefix + m))
  }

  /** The map `checkTenantControlEnabled` returns. */
  datatype TenantControlReport = TenantControlReport(
    orgId: Int64,
    tenantControlEnabled: bool,
    details: Option<Body>,
    error: Option<string>)

  /**
   * `checkTenantControlEnabled` as the source writes it. The result is built
   * with `Map.of`, which rejects null values: an empty body makes the success
   * map throw a NullPointerException without a message, and the catch block's
   * own `Map.of` then rejects that null message and throws again.
   */
  function CheckTenantControlEnabledAsWritten(args: Args, api: OrgBackend): (r: Result<TenantControlReport, Failure>)
    ensures GetLongArgument(args, "org_id").Err? ==> r == Err(GetLongArgument(args, "org_id").error)
  {
    var orgId :- GetLongArgument(args, "org_id");
    match api.tenantControl(orgId)
    case Ok(Some(body)) => Ok(TenantControlReport(orgId, true, Some(body), None))
    case Ok(None) => Err(NullPointer(None))
    case Err(m) => Ok(TenantControlReport(orgId, false, None, Some(m)))
  }

  /**
   * `checkTenantControlEnabled` as evidently intended: it never fails once
   * the id is read, it echoes the id, and tenant control is enabled exactly
   * when the service returned a body.
   */
  function CheckTenantControlEnabled(args: Args, api: OrgBackend): (r: Result<TenantControlReport, Failure>)
    ensures GetLongArgument(args, "org_id").Err? ==> r == Err(GetLongArgument(args, "org_id").error)
    ensures GetLongArgument(args, "org_id").Ok? ==>
      var orgId := GetLongArgument(args, "org_id").value;
      var reply := api.tenantControl(orgId);
      && r.Ok? && r.value.orgId == orgId
      && (reply.Ok? ==> r.value.tenantControlEnabled == reply.value.Some? && r.value.details == reply.value && r.value.error.None?)
      && (reply.Err? ==> !r.value.tenantControlEnabled && r.value.error == Some(reply.error) && r.value.details.None?)
  {
    var orgId :- GetLongArgument(args, "org_id");
    match api.tenantControl(orgId)
    case Ok(body) => Ok(TenantControlReport(orgId, body.Some?, body, None))
    case Err(m) => Ok(TenantControlReport(orgId, false, None, Some(m)))
  }

  /**
   * As written, a report that carries no error always says tenant control is
   * enabled: the `details != null` test can never yield false.
   */
  lemma AsWrittenNeverReportsDisabledWithoutError(args: Args, api: OrgBackend)
    requires CheckTenantControlEnabledAsWritten(args, api).Ok?
    requires CheckTenantControlEnabledAsWritten(args, api).value.error.None?
    ensures CheckTenantControlEnabledAsWritten(args, api).value.tenantControlEnabled
  {
  }

  /** The discrepancy: an empty body fails as written, and reports "disabled" once corrected. */
  lemma EmptyBodyDiscrepancy(args: Args, api: OrgBackend)
    requires GetLongArgument(args, "org_id").Ok?
    requires api.tenantControl(GetLongArgument(args, "org_id").value) == Ok(None)
    ensures CheckTenantControlEnabledAsWritten(args, api) == Err(NullPointer(None))
    ensures CheckTenantControlEnabledAsWritten(args, api).error.Text() == "null"
    ensures CheckTenantControlEnabled(args, api) ==
      Ok(TenantControlReport(GetLongArgument(args, "org_id").value, false, None, None))
  {
  }

  /** Everywhere else the two definitions agree. */
  lemma CorrectionIsConservative(args: Args, api: OrgBackend)
    requires GetLongArgument(args, "org_id").Ok? ==> api.tenantControl(GetLongArgument(args, "org_id").value) != Ok(None)
    ensures CheckTenantControlEnabledAsWritten(args, api) == CheckTenantControlEnabled(args, api)
  {
  }
}

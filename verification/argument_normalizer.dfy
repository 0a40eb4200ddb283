/**
 * The argument normaliser: clients send one generic `identifier`, and each
 * handler reads it under its own parameter name.
 */
module ArgumentNormalizer {
  import opened Wrappers
  import opened Arguments

  const IdentifierKey: string := "identifier"

  /**
   * The parameter a tool's handler expects in place of `identifier`, or None
   * when the handler reads `identifier` itself (or takes no identifier). Tools
   * that are no longer dispatched keep their entry.
   */
  function TargetKey(toolName: string): (k: Option<string>)
    ensures k.Some? ==> k.value != IdentifierKey
    ensures k.Some? ==> k.value in {"org_id", "uid", "user_email", "email"}
  {
    match toolName
    case "get_organization_details" | "get_cui_tenant_details" | "check_tenant_control_enabled"
       | "set_password_policy" | "get_tenant_mapping_status" => Some("org_id")
    case "sync_user_profile" | "create_user_in_tenant" | "sync_user_tenants" | "get_user_cui_metadata" => Some("uid")
    case "get_user_organizations" => Some("user_email")
    case "get_user_regions" => Some("email")
    case _ => None
  }

  /**
   * `mapArgumentsForTool`: a copy of the arguments in which `identifier`, when
   * present and the tool has a target parameter, is moved to that parameter,
   * overwriting any value already there.
   */
  function MapArgumentsForTool(toolName: string, args: Args): (r: Args)
    ensures IdentifierKey !in args ==> r == args
    ensures TargetKey(toolName).None? ==> r == args
    ensures IdentifierKey in args && TargetKey(toolName).Some? ==>
      var k := TargetKey(toolName).value;
      && r.Keys == args.Keys - {IdentifierKey} + {k}
      && r[k] == args[IdentifierKey]
      && (forall j | j in args && j != k && j != IdentifierKey :: r[j] == args[j])
  {
    if IdentifierKey in args then
      match TargetKey(toolName)
      case Some(k) => args[k := args[IdentifierKey]] - {IdentifierKey}
      case None => args
    else
      args
  }

  /** Normalising twice is normalising once. */
  lemma Idempotent(toolName: string, args: Args)
    ensures MapArgumentsForTool(toolName, MapArgumentsForTool(toolName, args)) == MapArgumentsForTool(toolName, args)
  {
  }

  /**
   * For a tool with a target parameter, sending `identifier: x` is the same
   * as sending the target parameter `x` directly: both normalise to the
   * same arguments.
   */
  lemma IdentifierActsAsTarget(toolName: string, args: Args, x: Value)
    requires TargetKey(toolName).Some?
    requires IdentifierKey !in args
    ensures var k := TargetKey(toolName).value;
      MapArgumentsForTool(toolName, args[IdentifierKey := x]) == MapArgumentsForTool(toolName, args[k := x])
  {
    var k := TargetKey(toolName).value;
    var viaIdentifier := MapArgumentsForTool(toolName, args[IdentifierKey := x]);
    assert viaIdentifier == args[k := x];
  }

  /** The tools whose handlers read `identifier` themselves, or read no identifier, see their arguments unchanged. */
  lemma PassThroughTools(toolName: string, args: Args)
    requires toolName in {"get_user_by_id", "get_sync_retry_status", "get_sync_metrics",
                          "get_service_health", "get_sync_statistics", "get_kafka_stream_status",
                          "get_database_connectivity", "get_external_service_status"}
    ensures MapArgumentsForTool(toolName, args) == args
  {
  }
}

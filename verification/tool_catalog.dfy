/**
 * The tool catalog returned by tools/list: fifteen descriptors, each with a
 * JSON-schema description of its input.
 */
module ToolCatalog {
  import opened Wrappers

  /** One declared input property. */
  datatype Property = Property(
    propertyType: string,
    description: string,
    defaultValue: Option<string>,
    enumValues: Option<seq<string>>)

  /** The input schema of a tool; `schemaType` defaults to "object". */
  datatype InputSchema = InputSchema(
    schemaType: string,
    properties: map<string, Property>,
    required: seq<string>)

  datatype McpTool = McpTool(name: string, description: string, inputSchema: InputSchema)

  /** A schema declaring the single string property `identifier`. */
  function IdentifierSchema(description: string, required: seq<string>): InputSchema {
    InputSchema("object", map["identifier" := Property("string", description, None, None)], required)
  }

  /**
   * The schema of each tool. Names of tools that are no longer listed keep
   * their entry, and every other name gets the generic schema.
   */
  function CreateInputSchema(toolName: string): (s: InputSchema)
    ensures s.schemaType == "object"
    ensures s.properties.Keys == {"identifier"}
    ensures s.properties["identifier"].propertyType == "string"
    ensures s.required == (if toolName == "get_user_regions" then ["identifier"] else [])
  {
    match toolName
    case "get_user_by_id" => IdentifierSchema("User ID (numeric) or email address", [])
    case "get_user_organizations" => IdentifierSchema("User's email address", [])
    case "sync_user_profile" => IdentifierSchema("User ID", [])
    case "create_user_in_tenant" => IdentifierSchema("User ID", [])
    case "sync_user_tenants" => IdentifierSchema("User ID", [])
    case "get_user_cui_metadata" => IdentifierSchema("User ID", [])
    case "get_organization_details" => IdentifierSchema("Organization ID", [])
    case "get_cui_tenant_details" => IdentifierSchema("Organization ID", [])
    case "check_tenant_control_enabled" => IdentifierSchema("Organization ID", [])
    case "set_password_policy" => IdentifierSchema("Organization ID", [])
    case "get_tenant_mapping_status" => IdentifierSchema("Organization ID", [])
    case "get_user_regions" => IdentifierSchema("User's email address", ["identifier"])
    case _ => IdentifierSchema("Identifier parameter", [])
  }

  /** `createXxxTool`: the descriptor tools/list reports, with the schema chosen by name. */
  function CreateTool(name: string, description: string): (t: McpTool)
    ensures t.name == name && t.description == description
    ensures t.inputSchema == CreateInputSchema(name)
  {
    McpTool(name, description, CreateInputSchema(name))
  }

  predicate DistinctNames(tools: seq<McpTool>) {
    forall i, j | 0 <= i < j < |tools| :: tools[i].name != tools[j].name
  }

  /** `required` lists only declared properties. */
  predicate SchemaWellFormed(s: InputSchema) {
    forall i | 0 <= i < |s.required| :: s.required[i] in s.properties
  }

  /** The names tools/list reports, in its order: user, organization, sync, account, monitoring tools. */
  const CatalogNames: seq<string> := [
    "get_user_by_id", "get_user_organizations", "get_user_cui_metadata",
    "get_organization_details", "get_cui_tenant_details", "check_tenant_control_enabled",
    "get_tenant_mapping_status",
    "get_sync_retry_status", "get_sync_metrics",
    "get_user_regions",
    "get_service_health", "get_sync_statistics", "get_kafka_stream_status",
    "get_database_connectivity", "get_external_service_status"]

  /** The description of each catalog entry, index for index with `CatalogNames`. */
  const CatalogDescriptions: seq<string> := [
    "Retrieve user details by UID or email",
    "Get all organizations a user belongs to",
    "Retrieve CUI-specific user metadata",
    "Retrieve organization information",
    "Get CUI tenant configuration for organization",
    "Verify if CUI tenant control is active",
    "Check tenant mapping synchronization status",
    "Monitor failed synchronization attempts",
    "Retrieve synchronization performance metrics",
    "Get all regions a user belongs to",
    "Check service health and dependencies",
    "Retrieve synchronization statistics and trends",
    "Monitor Kafka streams health",
    "Check database connection status",
    "Verify external service connectivity"]

  /** The catalog, in the order tools/list reports it. */
  function AvailableTools(): (tools: seq<McpTool>)
    ensures |tools| == |CatalogNames|
    ensures forall i | 0 <= i < |tools| :: tools[i] == CreateTool(CatalogNames[i], CatalogDescriptions[i])
  {
    seq(|CatalogNames|, i requires 0 <= i < |CatalogNames| => CreateTool(CatalogNames[i], CatalogDescriptions[i]))
  }

  /** The names the catalog lists, in catalog order. */
  function ToolNames(tools: seq<McpTool>): (names: seq<string>)
    ensures |names| == |tools|
    ensures forall i | 0 <= i < |tools| :: names[i] == tools[i].name
  {
    seq(|tools|, i requires 0 <= i < |tools| => tools[i].name)
  }

  /** The catalog is fifteen tools, in source order, no name listed twice. */
  lemma CatalogIsFixed()
    ensures |AvailableTools()| == 15
    ensures ToolNames(AvailableTools()) == CatalogNames
    ensures DistinctNames(AvailableTools())
    ensures forall i | 0 <= i < 15 :: AvailableTools()[i].description == CatalogDescriptions[i]
  {
    var tools := AvailableTools();
    assert forall i | 0 <= i < |tools| :: tools[i].name == CatalogNames[i];
    assert forall i, j | 0 <= i < j < |CatalogNames| :: CatalogNames[i] != CatalogNames[j];
  }

  /**
   * Every schema in the catalog declares exactly the string property
   * `identifier`, requires nothing but `get_user_regions`'s identifier, and
   * so never requires an undeclared property.
   */
  lemma CatalogSchemas(i: nat)
    requires i < |AvailableTools()|
    ensures var t := AvailableTools()[i];
      && t.inputSchema.properties.Keys == {"identifier"}
      && t.inputSchema.properties["identifier"].propertyType == "string"
      && (t.inputSchema.required == ["identifier"] <==> t.name == "get_user_regions")
      && (t.inputSchema.required == [] <==> t.name != "get_user_regions")
      && SchemaWellFormed(t.inputSchema)
  {
  }
}

# MCP tool dispatch, modelled in Dafny

This project models the tool-dispatch layer of an MCP (Model Context Protocol)
server that answers JSON-RPC 2.0 `tools/list` and `tools/call` requests for
user, organization, sync, account and monitoring data. The layer has these
parts:

- the fixed catalog of fifteen tools and their input schemas;
- the argument normaliser, which moves the generic `identifier` argument
  to the parameter each handler reads;
- the dispatcher, which routes a tool name to its handler and wraps every
  outcome into a one-item text result, so no exception escapes;
- the handlers' argument rules: two `getLongArgument` variants,
  `getIntegerArgument`, defaults, the uid-or-email fallback, pagination and
  the time-range table;
- the health aggregator and the by-name service check;
- the JSON-RPC response envelope.

Every data-store query, HTTP call and RPC is a parameter. It is a function
from its input to `Reply<T>`: either the value, or the message of the
exception the call threw. The backends of one tool call are bundled in
per-service records (`UserStore`, `OrgBackend`, `SyncStore`, `DatabaseProbe`,
…) and in the dispatcher's `Env`. The dispatcher also takes Jackson's
serialiser as a parameter.

Java's semantics are written out where the handlers depend on them:

- `Map.get` cannot tell a missing key from a JSON null.
- `getOrDefault` can: it gives the default only for a missing key.
- Checked casts throw `ClassCastException`.
- `Number.longValue()` / `intValue()` wrap in two's complement (`Wrap64`,
  `Wrap32`).
- `Long.parseLong` / `Integer.parseInt` accept an optional sign followed by
  ASCII digits, within range.
- `int` addition wraps, and `/` truncates toward zero (`TruncDiv`).
- `"…" + e.getMessage()` renders a null message as `null`.

Exceptions are the `Failure` datatype, and `Failure.Text()` is what the
dispatcher prints after `"Error: "`.

Modules, one file each:

- `Wrappers`: `Option` and `Result`.
- `JavaLang`: integer widths, decimal parse/print, ASCII upper-casing and
  exceptions.
- `Arguments`: decoded argument values and the casts.
- `Backend`: `Reply` and `Body`.
- `McpResponse`, `ToolCatalog`, `ArgumentNormalizer`.
- `UserService`, `OrganizationService`, `SyncService`, `MonitoringService`,
  `AccountManagement`.
- `ToolService`: the dispatcher.

## Model

| member | source | states |
|---|---|---|
| JavaLang.Wrap32 | src/main/java/com/thousandeyes/cui/mcp/service/SyncService.java:216-218 | `intValue()` keeps the value modulo 2^32, and leaves ints alone |
| JavaLang.Wrap64 | src/main/java/com/thousandeyes/cui/mcp/service/UserService.java:276-278 | `longValue()` keeps the value modulo 2^64, and leaves longs alone |
| JavaLang.Wrap32Congruent | src/main/java/com/thousandeyes/cui/mcp/service/SyncService.java:182-189 | wrapping after every int addition equals wrapping the exact result once |
| JavaLang.TruncDiv | src/main/java/com/thousandeyes/cui/mcp/service/SyncService.java:83 | Java int division: the magnitude is the floor of the magnitudes' quotient, and the sign is the product of the signs |
| JavaLang.NatToDecimal | src/main/java/com/thousandeyes/cui/mcp/service/AccountManagementGrpcService.java:38 | `toString()` of a natural number: a non-empty digit string, without leading zeros, whose value is the number |
| JavaLang.IntToDecimal | src/main/java/com/thousandeyes/cui/mcp/service/AccountManagementGrpcService.java:38 | `toString()` of an integer starts with a minus sign exactly when the integer is negative |
| JavaLang.ParseSigned | src/main/java/com/thousandeyes/cui/mcp/service/UserService.java:279 | a parse succeeds exactly for a numeral whose value is in range, and yields that value |
| JavaLang.ParseLong | src/main/java/com/thousandeyes/cui/mcp/service/OrganizationService.java:192 | `Long.parseLong` fails exactly on a non-numeral or a value outside 64 bits |
| JavaLang.ParseInt | src/main/java/com/thousandeyes/cui/mcp/service/SyncService.java:219 | `Integer.parseInt` fails exactly on a non-numeral or a value outside 32 bits |
| JavaLang.DecimalRoundTrip | src/main/java/com/thousandeyes/cui/mcp/service/UserService.java:276-279 | parsing a number's decimal string gives back the number |
| JavaLang.ParseLongOfDecimal | src/main/java/com/thousandeyes/cui/mcp/service/OrganizationService.java:189-192 | every long survives `toString` followed by `parseLong` |
| JavaLang.ParseIntOfDecimal | src/main/java/com/thousandeyes/cui/mcp/service/SyncService.java:216-219 | every int survives `toString` followed by `parseInt` |
| JavaLang.ForeignCharacterNeverParses | src/main/java/com/thousandeyes/cui/mcp/service/UserService.java:33-38 | a string with a character other than a digit or sign never parses, so an email address is never a uid |
| JavaLang.UpperChar | src/main/java/com/thousandeyes/cui/mcp/service/MonitoringService.java:209 | upper-casing shifts exactly the ASCII lower-case letters |
| JavaLang.UpperAscii | src/main/java/com/thousandeyes/cui/mcp/service/MonitoringService.java:209 | `toUpperCase()` on ASCII, character by character, keeping the length |
| Arguments.ToJavaString | src/main/java/com/thousandeyes/cui/mcp/service/AccountManagementGrpcService.java:38 | `toString()` of an argument value: the string itself, a number's decimal, `true`/`false` |
| Arguments.Get | src/main/java/com/thousandeyes/cui/mcp/service/UserService.java:271 | `Map.get` is null exactly for a missing key or a JSON null |
| Arguments.CastString | src/main/java/com/thousandeyes/cui/mcp/service/UserService.java:27 | a `(String)` cast of `get`: null when absent, the string when a string, `ClassCastException` otherwise |
| Arguments.CastStringOrDefault | src/main/java/com/thousandeyes/cui/mcp/service/SyncService.java:113 | `(String) getOrDefault`: the default only for a missing key, null for a JSON null, a cast error for a non-string |
| Arguments.CastBooleanOrDefault | src/main/java/com/thousandeyes/cui/mcp/service/UserService.java:28 | `(Boolean) getOrDefault`, with the same three cases |
| Backend.Raised | src/main/java/com/thousandeyes/cui/mcp/service/OrganizationService.java:41-54 | a failed backend call propagates as an exception carrying its message |
| McpResponse.Builder | src/main/java/com/thousandeyes/cui/mcp/model/mcp/McpResponse.java:22-28 | a built response has `jsonrpc` "2.0" and nothing else set |
| McpResponse.Success | src/main/java/com/thousandeyes/cui/mcp/model/mcp/McpResponse.java:58-63 | `success` sets `id` and `result` and leaves `error` absent |
| McpResponse.Error | src/main/java/com/thousandeyes/cui/mcp/model/mcp/McpResponse.java:65-73 | `error` sets the code and message, leaves `data` and `result` absent |
| McpResponse.FactoriesWellFormed | src/main/java/com/thousandeyes/cui/mcp/model/mcp/McpResponse.java:58-73 | an error response always has exactly one of `result`/`error`; a success response has it exactly when its result is non-null |
| McpResponse.TextResult | src/main/java/com/thousandeyes/cui/mcp/model/mcp/McpResponse.java:40-56 | a tool result with one `"text"` item carrying the given text and flag |
| ToolCatalog.CreateInputSchema | src/main/java/com/thousandeyes/cui/mcp/service/McpToolService.java:231-436 | every schema, for every name, is an object declaring the one string property `identifier`, and only `get_user_regions` requires it |
| ToolCatalog.CreateTool | src/main/java/com/thousandeyes/cui/mcp/service/McpToolService.java:191-229 | a descriptor carries its name, its description and the schema for that name |
| ToolCatalog.AvailableTools | src/main/java/com/thousandeyes/cui/mcp/service/McpToolService.java:29-64 | the catalog is one descriptor per listed name, in listing order |
| ToolCatalog.CatalogIsFixed | src/main/java/com/thousandeyes/cui/mcp/service/McpToolService.java:30-63 | fifteen tools, in source order, with pairwise distinct names and each with its listed description |
| ToolCatalog.CatalogSchemas | src/main/java/com/thousandeyes/cui/mcp/service/McpToolService.java:256-436 | each catalog schema declares exactly `identifier` as a string; `required` is `["identifier"]` for `get_user_regions` and empty otherwise, so it only names declared properties |
| ArgumentNormalizer.TargetKey | src/main/java/com/thousandeyes/cui/mcp/service/McpToolService.java:142-171 | the parameter `identifier` moves to is one of org_id, uid, user_email and email, and never `identifier` itself |
| ArgumentNormalizer.MapArgumentsForTool | src/main/java/com/thousandeyes/cui/mcp/service/McpToolService.java:135-176 | without `identifier`, or for a tool without a target, the arguments are unchanged; otherwise the keys are the old ones minus `identifier` plus the target, the target holds the identifier's value (overwriting), and every other key is kept |
| ArgumentNormalizer.Idempotent | src/main/java/com/thousandeyes/cui/mcp/service/McpToolService.java:135-176 | normalising twice equals normalising once |
| ArgumentNormalizer.IdentifierActsAsTarget | src/main/java/com/thousandeyes/cui/mcp/service/McpToolService.java:142-166 | `{identifier: x}` and `{target: x}` normalise to the same arguments |
| ArgumentNormalizer.PassThroughTools | src/main/java/com/thousandeyes/cui/mcp/service/McpToolService.java:168-171 | `get_user_by_id` and the sync and monitoring tools see their arguments unchanged |
| UserService.GetLongArgument | src/main/java/com/thousandeyes/cui/mcp/service/UserService.java:270-280 | null for a missing argument, a number's long value, or `parseLong` of the string, failing with NumberFormatException |
| UserService.NumberAndDecimalAgree | src/main/java/com/thousandeyes/cui/mcp/service/UserService.java:276-279 | a number and its decimal string read as the same long |
| UserService.ApplyCuiMetadata | src/main/java/com/thousandeyes/cui/mcp/service/UserService.java:233-268 | enrichment never fails and changes only `cuiUserId`/`cuiOrgId`; a failed query or a null, blank or non-JSON document changes nothing; parsed metadata sets each field to its key's text or to null |
| UserService.IdentifierPath | src/main/java/com/thousandeyes/cui/mcp/service/UserService.java:33-38 | the uid path exactly when the identifier parses as a long, with that long; otherwise the email path with the identifier itself |
| UserService.FindUser | src/main/java/com/thousandeyes/cui/mcp/service/UserService.java:180-231 | a found row is enriched exactly when the flag is true; a missing row fails; a null flag fails with a NullPointerException after the lookup |
| UserService.GetUserById | src/main/java/com/thousandeyes/cui/mcp/service/UserService.java:26-39 | both casts fail before any lookup; once both succeed, the outcome is the lookup the identifier selects (by uid when it parses as a long, else by email) with the flag applied; a result is that row, changed at most in its CUI fields |
| UserService.NonStringIdentifierFails | src/main/java/com/thousandeyes/cui/mcp/service/UserService.java:27 | a non-string identifier fails with a ClassCastException |
| UserService.DecimalIdentifierLooksUpUid | src/main/java/com/thousandeyes/cui/mcp/service/UserService.java:28-35 | a decimal identifier looks the user up by uid, with enrichment on by default |
| UserService.EmailIdentifierLooksUpEmail | src/main/java/com/thousandeyes/cui/mcp/service/UserService.java:33-37 | an identifier with a non-numeric character looks the user up by email, never failing to parse |
| UserService.GetUserOrganizations | src/main/java/com/thousandeyes/cui/mcp/service/UserService.java:41-50 | `user_email` wins over `identifier`: a non-string `user_email` is a cast error, with no fallback; a missing or null one falls back to `identifier`, whose cast error propagates; with neither, the IllegalArgumentException with its fixed message |
| UserService.MetadataUid | src/main/java/com/thousandeyes/cui/mcp/service/UserService.java:148-152 | `uid` when it is present, `identifier` only when `uid` is missing |
| UserService.GetUserCuiMetadata | src/main/java/com/thousandeyes/cui/mcp/service/UserService.java:146-178 | argument and lookup failures propagate; a found row is returned, always enriched |
| UserService.UidShadowsIdentifier | src/main/java/com/thousandeyes/cui/mcp/service/UserService.java:148-152 | with `uid` present, `identifier` does not affect the outcome |
| OrganizationService.GetLongArgument | src/main/java/com/thousandeyes/cui/mcp/service/OrganizationService.java:184-193 | a missing argument throws "Required argument '…' is missing"; otherwise a number's long value or `parseLong` of the string |
| OrganizationService.NumberAndDecimalAgree | src/main/java/com/thousandeyes/cui/mcp/service/OrganizationService.java:189-192 | `{org_id: n}` and `{org_id: "n"}` read the same id |
| OrganizationService.NonNumeralIsFormatError | src/main/java/com/thousandeyes/cui/mcp/service/OrganizationService.java:192 | a non-numeric `org_id` is a NumberFormatException naming the input |
| OrganizationService.EnrichWithFeatureFlag | src/main/java/com/thousandeyes/cui/mcp/service/OrganizationService.java:162-181 | only the phase-2 flag can change; it becomes true when a feature-1073 row was seen, and a failed query changes nothing |
| OrganizationService.GetOrganizationDetails | src/main/java/com/thousandeyes/cui/mcp/service/OrganizationService.java:24-59 | the argument error, or the lookup failure, or the found row enriched by the flag of its own id |
| OrganizationService.GetTenantMappingStatus | src/main/java/com/thousandeyes/cui/mcp/service/OrganizationService.java:131-160 | the same for the latest mapping row |
| OrganizationService.GetCuiTenantDetails | src/main/java/com/thousandeyes/cui/mcp/service/OrganizationService.java:61-77 | the body as returned; a call failure is rethrown as "Failed to get CUI tenant details: " + message, while an argument error is not wrapped |
| OrganizationService.CheckTenantControlEnabledAsWritten | src/main/java/com/thousandeyes/cui/mcp/service/OrganizationService.java:79-105 | the check as written: only an argument error propagates through its contract; its behaviour is stated by the three lemmas below |
| OrganizationService.CheckTenantControlEnabled | src/main/java/com/thousandeyes/cui/mcp/service/OrganizationService.java:84-104 | never fails once the id is read; echoes the id; enabled exactly when a body came back; a failed call gives disabled plus the error message |
| OrganizationService.AsWrittenNeverReportsDisabledWithoutError | src/main/java/com/thousandeyes/cui/mcp/service/OrganizationService.java:92-96 | as written, a report without an error always says enabled |
| OrganizationService.EmptyBodyDiscrepancy | src/main/java/com/thousandeyes/cui/mcp/service/OrganizationService.java:92-103 | an empty body fails as written, reading "null", and gives a disabled report once corrected |
| OrganizationService.CorrectionIsConservative | src/main/java/com/thousandeyes/cui/mcp/service/OrganizationService.java:84-104 | on every other input the corrected check agrees with the written one |
| SyncService.GetIntegerArgument | src/main/java/com/thousandeyes/cui/mcp/service/SyncService.java:211-220 | the default for a missing argument, a number's int value, or `parseInt` of the string, failing with NumberFormatException |
| SyncService.IntegerAndDecimalAgree | src/main/java/com/thousandeyes/cui/mcp/service/SyncService.java:216-219 | a number and its decimal string read as the same int |
| SyncService.EntityFilter | src/main/java/com/thousandeyes/cui/mcp/service/SyncService.java:40-43 | the entity-type filter applies exactly for a non-null, non-empty type |
| SyncService.TotalPagesAsWritten | src/main/java/com/thousandeyes/cui/mcp/service/SyncService.java:83 | the written formula divides by zero exactly when the size is zero |
| SyncService.CeilDiv | src/main/java/com/thousandeyes/cui/mcp/service/SyncService.java:83 | the quotient rounded up: for a positive size, the least page count whose pages hold every row |
| SyncService.TotalPages | src/main/java/com/thousandeyes/cui/mcp/service/SyncService.java:83 | a size of zero is a division by zero; for a positive size, `totalPages` is ceil(total/size) and at most the total; a negative size keeps the written formula |
| SyncService.CorrectionIsConservative | src/main/java/com/thousandeyes/cui/mcp/service/SyncService.java:83 | for every negative size, and for every positive size where `total + size - 1` fits in an int, the written formula equals the corrected page count |
| SyncService.CorrectionOnlyOnOverflow | src/main/java/com/thousandeyes/cui/mcp/service/SyncService.java:83 | conversely, for every positive size whose `total + size - 1` overflows an int, the written formula differs from the corrected page count |
| SyncService.TotalPagesOverflow | src/main/java/com/thousandeyes/cui/mcp/service/SyncService.java:83 | 5 rows in pages of 2147483647: zero pages as written, one page corrected |
| SyncService.GetSyncRetryStatus | src/main/java/com/thousandeyes/cui/mcp/service/SyncService.java:23-86 | argument, row-query and count-query failures propagate in that order; once all succeed, the result exists exactly when the size is non-zero; the page comes from the query with `limit = size` and `offset = page * size` (wrapped), and the count from the same filter; `page`, `size` and `totalElements` are echoed; `totalPages` is the corrected page count |
| SyncService.DefaultPage | src/main/java/com/thousandeyes/cui/mcp/service/SyncService.java:24-25 | without arguments: page 0 of size 20, offset 0, unfiltered |
| SyncService.SecondPageOffset | src/main/java/com/thousandeyes/cui/mcp/service/SyncService.java:45-47 | page 1 of size 10 queries limit 10, offset 10 |
| SyncService.NegativeSizeAsWritten | src/main/java/com/thousandeyes/cui/mcp/service/SyncService.java:77-84 | `{size: -1}` with no matching rows reports 2 pages, as the written formula does |
| SyncService.SyncHours | src/main/java/com/thousandeyes/cui/mcp/service/SyncService.java:119-125 | an unrecognised time range means 24 hours |
| SyncService.SyncHoursAreDurations | src/main/java/com/thousandeyes/cui/mcp/service/SyncService.java:119-125 | each recognised range maps to the hours it spells (a count of hours or days) |
| SyncService.StreamSumWrapsExactSum | src/main/java/com/thousandeyes/cui/mcp/service/SyncService.java:182-189 | `IntStream.sum` with wrapping additions is the exact sum wrapped once |
| SyncService.SuccessesWithinTotal | src/main/java/com/thousandeyes/cui/mcp/service/SyncService.java:181-189 | with non-negative counts, the sum over "SUCCESS" rows lies between zero and the sum over all rows |
| SyncService.CalculateSummary | src/main/java/com/thousandeyes/cui/mcp/service/SyncService.java:181-198 | `totalOperations` and `successCount` are the wrapped sums over all rows and over "SUCCESS" rows; without overflow, 0 ≤ successCount ≤ totalOperations |
| SyncService.GetSyncMetrics | src/main/java/com/thousandeyes/cui/mcp/service/SyncService.java:112-158 | `time_range` defaults to "24h" only when absent and is echoed; once the casts succeed with a non-null range, the result exists exactly when the metrics query for its hours answers, and its failure propagates; the metrics are that answer and the summary is computed from them; a null range fails at the switch |
| SyncService.UnknownRangeEchoed | src/main/java/com/thousandeyes/cui/mcp/service/SyncService.java:119-125 | an unrecognised range reads the last 24 hours and is echoed unchanged |
| MonitoringService.CheckDatabaseHealth | src/main/java/com/thousandeyes/cui/mcp/service/MonitoringService.java:137-170 | never fails; healthy/UP exactly when the connection opens, is valid, answers `SELECT 1` and closes; the error is the first failing step's message; a valid-less connection reads "Database connection invalid" |
| MonitoringService.CheckExternalServiceHealth | src/main/java/com/thousandeyes/cui/mcp/service/MonitoringService.java:172-205 | healthy/UP exactly when the GET completes, empty body included ("No response"); a failure is DOWN with its message; one service entry |
| MonitoringService.GetServiceHealth | src/main/java/com/thousandeyes/cui/mcp/service/MonitoringService.java:27-44 | both probes run; the components are exactly `database` and `externalServices`; UP exactly when both are healthy, DOWN otherwise |
| MonitoringService.HealthVerdict | src/main/java/com/thousandeyes/cui/mcp/service/MonitoringService.java:33-37 | UP exactly when every database step succeeds and the GET completes |
| MonitoringService.GetDatabaseConnectivity | src/main/java/com/thousandeyes/cui/mcp/service/MonitoringService.java:119-123 | exactly the database component the health check reports |
| MonitoringService.CheckSpecificService | src/main/java/com/thousandeyes/cui/mcp/service/MonitoringService.java:207-242 | echoes the name; UNKNOWN with "Service not recognized" exactly for an unrecognised name; a recognised name is UP when the GET completes and DOWN with the message when it fails |
| MonitoringService.UnknownNameIgnoresService | src/main/java/com/thousandeyes/cui/mcp/service/MonitoringService.java:226-231 | an unrecognised name's report does not depend on the service |
| MonitoringService.NameMatchIgnoresCase | src/main/java/com/thousandeyes/cui/mcp/service/MonitoringService.java:209-211 | names equal up to ASCII case get the same status |
| MonitoringService.LowerCaseNameRecognized | src/main/java/com/thousandeyes/cui/mcp/service/MonitoringService.java:209-211 | "cui-integration-service" is recognised |
| MonitoringService.GetExternalServiceStatus | src/main/java/com/thousandeyes/cui/mcp/service/MonitoringService.java:125-135 | the named check when `service_name` is a string, the aggregate probe when it is missing, a cast error otherwise |
| MonitoringService.StatisticsHours | src/main/java/com/thousandeyes/cui/mcp/service/MonitoringService.java:51-57 | the statistics table agrees with the sync-metrics table on every range |
| MonitoringService.GetSyncStatistics | src/main/java/com/thousandeyes/cui/mcp/service/MonitoringService.java:46-94 | same `time_range` handling as the metrics: default "24h" when absent, echoed, null fails; for a non-null range the result exists exactly when the statistics query for its hours answers, and is that answer |
| MonitoringService.StatisticsDefaultDay | src/main/java/com/thousandeyes/cui/mcp/service/MonitoringService.java:47 | without arguments the statistics cover "24h" |
| AccountManagement.FromRegionIds | src/main/java/com/thousandeyes/cui/mcp/model/dto/UserRegionsDto.java:24-30 | email and ids passed through; the count is the list length, 0 for null; no default region |
| AccountManagement.FromRegionResponse | src/main/java/com/thousandeyes/cui/mcp/model/dto/UserRegionsDto.java:32-39 | the same, with the default region set |
| AccountManagement.FactoriesAgree | src/main/java/com/thousandeyes/cui/mcp/model/dto/UserRegionsDto.java:24-39 | the two factories differ only in the default region |
| AccountManagement.ThreeRegions | src/test/java/com/thousandeyes/cui/mcp/service/AccountManagementServiceTest.java:51-60 | `[1, 2, 3]` counts three regions |
| AccountManagement.GetStringArgument | src/main/java/com/thousandeyes/cui/mcp/service/AccountManagementGrpcService.java:33-39 | a missing argument throws "Required argument '…' is missing"; anything else is its `toString()` |
| AccountManagement.GetUserRegions | src/main/java/com/thousandeyes/cui/mcp/service/AccountManagementGrpcService.java:48-67 | a missing email is not wrapped; an RPC failure becomes "Failed to get user regions: " + message; a reply gives the email, the ids, their count and the default region |
| AccountManagement.RegionsDependOnlyOnEmail | src/main/java/com/thousandeyes/cui/mcp/service/AccountManagementGrpcService.java:27-30 | the outcome depends only on the RPC's answer for the given email |
| AccountManagement.MissingEmail | src/test/java/com/thousandeyes/cui/mcp/service/AccountManagementServiceTest.java:40-48 | no email: "Required argument 'email' is missing", whatever the RPC |
| AccountManagement.NumericEmailSentAsDecimal | src/main/java/com/thousandeyes/cui/mcp/service/AccountManagementGrpcService.java:38 | a number given as the email behaves as its decimal string |
| ToolService.CatalogIndex | src/main/java/com/thousandeyes/cui/mcp/service/McpToolService.java:30-63 | every handler has a position in the catalog |
| ToolService.Route | src/main/java/com/thousandeyes/cui/mcp/service/McpToolService.java:76-110 | a routed name is the name of the handler it reaches |
| ToolService.RoutingMatchesCatalog | src/main/java/com/thousandeyes/cui/mcp/service/McpToolService.java:76-108 | a name has a handler exactly when the catalog lists it |
| ToolService.RouteInvertsToolName | src/main/java/com/thousandeyes/cui/mcp/service/McpToolService.java:76-108 | each handler is reached through its own name |
| ToolService.ToolNamesDistinct | src/main/java/com/thousandeyes/cui/mcp/service/McpToolService.java:30-63 | no two handlers share a name |
| ToolService.RunHandler | src/main/java/com/thousandeyes/cui/mcp/service/McpToolService.java:76-108 | each handler returns a value of its own kind; only `get_cui_tenant_details` can return null; the health, Kafka and connectivity handlers never throw; the tenant-control check throws only on a bad `org_id` (the corrected check) |
| ToolService.Dispatch | src/main/java/com/thousandeyes/cui/mcp/service/McpToolService.java:72-110 | an unknown name is "Unknown tool: " + name; a known one runs its handler on the normalised arguments |
| ToolService.FormatResult | src/main/java/com/thousandeyes/cui/mcp/service/McpToolService.java:179-189 | a null result is "Operation completed successfully"; any other is serialised |
| ToolService.ExecuteTool | src/main/java/com/thousandeyes/cui/mcp/service/McpToolService.java:69-130 | always one "text" item; an error exactly when dispatch failed, with text "Error: " + message; otherwise the formatted result |
| ToolService.UnknownToolReported | src/main/java/com/thousandeyes/cui/mcp/service/McpToolService.java:109 | a name outside the catalog yields the error text "Error: Unknown tool: " + name |
| ToolService.IdentifierEquivalence | src/main/java/com/thousandeyes/cui/mcp/service/McpToolService.java:74 | for every tool with a target, `{identifier: x}` and `{target: x}` give the same tool result |
| ToolService.MissingOrgIdReported | src/main/java/com/thousandeyes/cui/mcp/service/OrganizationService.java:184-188 | `get_organization_details` without `org_id` (absent or null) and without `identifier` reports "Error: Required argument 'org_id' is missing" |
| ToolService.EmptyTenantDetails | src/main/java/com/thousandeyes/cui/mcp/service/McpToolService.java:179-182 | an empty tenant-details body is a success with the fixed text |
| ToolService.UserRegionsByIdentifier | src/main/java/com/thousandeyes/cui/mcp/service/McpToolService.java:159-163 | `get_user_regions` with `{identifier: e}` asks the RPC about `e` and reports its answer |
| ToolService.UserByEmailIdentifier | src/main/java/com/thousandeyes/cui/mcp/service/McpToolService.java:78 | `get_user_by_id` with an email identifier looks the user up by email, enriched |
| ToolService.ServiceHealthVerdict | src/main/java/com/thousandeyes/cui/mcp/service/McpToolService.java:103 | the health tool never reports an error, and says UP exactly when both probes succeed |

## Findings

| source | as written | input that shows it | evidently intended | confidence | as-written member | corrected member |
|---|---|---|---|---|---|---|
| src/main/java/com/thousandeyes/cui/mcp/service/OrganizationService.java:92-103 | The success map is built with `Map.of(..., "details", tenantDetails)`, and `Map.of` rejects null values. An empty body therefore throws a NullPointerException without a message. The catch block's own `Map.of(..., "error", e.getMessage())` then throws again, so the tool reports "Error: null". | `org_id` 1, and the tenant-control endpoint answers with an empty body | `tenantControlEnabled` false with no details, which is what the `tenantDetails != null` test is there for | not executed | OrganizationService.CheckTenantControlEnabledAsWritten | OrganizationService.CheckTenantControlEnabled |
| src/main/java/com/thousandeyes/cui/mcp/service/SyncService.java:83 | `(totalCount + size - 1) / size` is int arithmetic, so the addition wraps for a large size. | `size` 2147483647 with 5 matching rows gives `totalPages` 0 | ceil(5 / 2147483647) = 1 page, the ceiling for every positive size | not executed | SyncService.TotalPagesAsWritten | SyncService.TotalPages |

The dispatcher uses the corrected members; the lines starting with `ToolService.RunHandler` and `SyncService.GetSyncRetryStatus` under "Left out" name the inputs on which it therefore differs from the code as written.

## Left out

- Backends: SQL text, row mapping, HTTP and gRPC calls are parameters. Each returns a value or the message of the exception it threw. A failing call is assumed to carry a non-null message.
- A failed feature-flag query is modelled as having seen no rows. A query that fails after mapping some rows would still have set the flag.
- JSON numbers with a fraction, and so `doubleValue` paths, are not modelled: numeric arguments are integers.
- JVM-generated exception messages are approximated: the ClassCast text, and the NullPointerException texts of an unboxed null flag and a switch on a null range.
- Parsing and case mapping are ASCII-only: `parseLong`/`parseInt` also accept non-ASCII Unicode digits, and `toUpperCase` has locale-specific cases; neither is modelled.
- Timestamps (`LocalDateTime.now()`), the floating-point `successRate` and `avgRetryCount`, and the retry rows' four timestamp columns are not modelled.
- `formatResult`'s fallback to `toString()` when serialisation throws is not modelled: the serialiser is a total function.
- Logging is not modelled.
- A null tool name or a null argument map are not modelled.
- The JSON-RPC controller, the stdio client script, the application entry point and the configuration classes are not modelled.
- The unregistered handlers are not modelled: `syncUserProfile`, `createUserInTenant`, `syncUserTenants`, `setPasswordPolicy`, `triggerUserSyncRetry`, `triggerOrgSyncRetry` and `clearRetryQueue`. They are unreachable from the dispatcher. Their names survive only in the normaliser's table and in the schema table.
- The integration service's health endpoint is one outcome per tool call. A real call could answer differently each time.
- OrganizationService.CheckTenantControlEnabledAsWritten: its contract states only the argument-error case. Its other behaviour is stated by AsWrittenNeverReportsDisabledWithoutError, EmptyBodyDiscrepancy and CorrectionIsConservative.
- ToolService.RunHandler: uses the corrected OrganizationService.CheckTenantControlEnabled and, through SyncService.GetSyncRetryStatus, the corrected SyncService.TotalPages. So `check_tenant_control_enabled` with an empty body reports a disabled tenant where the code as written reports "Error: null", and the page count differs as described on the next line.
- SyncService.GetSyncRetryStatus: `totalPages` is the corrected page count. It differs from the written `(totalCount + size - 1) / size` exactly for a positive size whose addition overflows an int, e.g. 5 rows in pages of 2147483647 give 1 page instead of 0. Zero and negative sizes follow the code as written.
- MonitoringService.GetKafkaStreamStatus: the Kafka status is a hard-coded mock in the code; it is kept as a constant so the dispatcher covers every tool, and promises nothing beyond that constant.

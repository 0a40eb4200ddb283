/**
 * The monitoring handlers: the database and external-service probes, the
 * overall health verdict built from them, a by-name service check, the
 * sync statistics and the Kafka stream status.
 */
module MonitoringService {
  import opened Wrappers
  import opened JavaLang
  import opened Arguments
  import opened Backend
  import SyncService

  // ---------------------------------------------------------------------
  // Probes
  // ---------------------------------------------------------------------

  /**
   * What each step of the database probe does: opening a connection,
   * `isValid(5)`, `SELECT 1`, and closing the connection again.
   */
  datatype DatabaseProbe = DatabaseProbe(
    getConnection: Reply<()>,
    isValid: Reply<bool>,
    selectOne: Reply<Option<Int32>>,
    close: Reply<()>)

  /** The outcome of `GET /actuator/health` on the integration service; None is an empty body. */
  type HealthCall = Reply<Option<string>>

  datatype DatabaseHealth = DatabaseHealth(
    healthy: bool,
    status: string,
    responseTime: Option<string>,
    details: Option<string>,
    error: Option<string>)

  /** The entry for one service under `services`. */
  datatype ServiceEntry = ServiceEntry(status: string, response: Option<string>, error: Option<string>)

  datatype ExternalHealth = ExternalHealth(healthy: bool, status: string, services: map<string, ServiceEntry>)

  const IntegrationService: string := "cui-integration-service"

  /** The database probe passes every step. */
  predicate DatabaseReachable(probe: DatabaseProbe) {
    probe.getConnection.Ok? && probe.isValid == Ok(true) && probe.selectOne.Ok? && probe.close.Ok?
  }

  /** The message of the first step that threw; a valid connection's close is the last step. */
  function FirstDatabaseError(probe: DatabaseProbe): Option<string> {
    if probe.getConnection.Err? then Some(probe.getConnection.error)
    else if probe.isValid.Err? then Some(probe.isValid.error)
    else if probe.isValid.value && probe.selectOne.Err? then Some(probe.selectOne.error)
    else if probe.close.Err? then Some(probe.close.error)
    else None
  }

  /**
   * `checkDatabaseHealth`, a try-with-resources block inside a catch-all:
   * when the body throws, a failing close is suppressed and the body's
   * exception is reported; when the body returns, a failing close is
   * reported instead of the body's result.
   */
  function CheckDatabaseHealth(probe: DatabaseProbe): (h: DatabaseHealth)
    ensures h.healthy <==> DatabaseReachable(probe)
    ensures h.status == (if h.healthy then "UP" else "DOWN")
    ensures h.healthy ==> h.details == Some("Database connection successful") && h.error.None?
    ensures h.error == FirstDatabaseError(probe)
    ensures h.error.None? && !h.healthy ==> h.details == Some("Database connection invalid")
  {
    var failed := (m: string) => DatabaseHealth(false, "DOWN", None, None, Some(m));
    match probe.getConnection
    case Err(m) => failed(m)
    case Ok(_) =>
      var body: Result<DatabaseHealth, string> :=
        match probe.isValid
        case Err(m) => Err(m)
        case Ok(valid) =>
          if !valid then Ok(DatabaseHealth(false, "DOWN", None, Some("Database connection invalid"), None))
          else match probe.selectOne
            case Err(m) => Err(m)
            case Ok(_) => Ok(DatabaseHealth(true, "UP", Some("< 100ms"), Some("Database connection successful"), None));
      match body
      case Err(m) => failed(m)
      case Ok(result) =>
        match probe.close
        case Err(m) => failed(m)
        case Ok(_) => result
  }

  /**
   * `checkExternalServiceHealth`: any completed GET is healthy, even with an
   * empty body; a failed one is reported with its message.
   */
  function CheckExternalServiceHealth(call: HealthCall): (h: ExternalHealth)
    ensures h.healthy <==> call.Ok?
    ensures h.status == (if h.healthy then "UP" else "DOWN")
    ensures h.services.Keys == {IntegrationService}
    ensures h.services[IntegrationService].status == h.status
    ensures call.Ok? ==> h.services[IntegrationService].response == Some(if call.value.Some? then "OK" else "No response")
    ensures call.Err? ==> h.services[IntegrationService].error == Some(call.error)
  {
    match call
    case Ok(body) =>
      ExternalHealth(true, "UP", map[IntegrationService := ServiceEntry("UP", Some(if body.Some? then "OK" else "No response"), None)])
    case Err(m) =>
      ExternalHealth(false, "DOWN", map[IntegrationService := ServiceEntry("DOWN", None, Some(m))])
  }

  // ---------------------------------------------------------------------
  // get_service_health
  // ---------------------------------------------------------------------

  datatype Component = Database(db: DatabaseHealth) | External(ext: ExternalHealth) {
    predicate Healthy() {
      match this
      case Database(d) => d.healthy
      case External(e) => e.healthy
    }
  }

  /** The overall verdict; the timestamp is not modelled. */
  datatype ServiceHealth = ServiceHealth(status: string, components: map<string, Component>)

  /** `getServiceHealth`: both probes run, and the service is up when both components are. */
  function GetServiceHealth(probe: DatabaseProbe, call: HealthCall): (r: ServiceHealth)
    ensures r.components.Keys == {"database", "externalServices"}
    ensures r.components["database"] == Database(CheckDatabaseHealth(probe))
    ensures r.components["externalServices"] == External(CheckExternalServiceHealth(call))
    ensures r.status == "UP" || r.status == "DOWN"
    ensures r.status == "UP" <==> r.components["database"].Healthy() && r.components["externalServices"].Healthy()
  {
    var database := CheckDatabaseHealth(probe);
    var external := CheckExternalServiceHealth(call);
    var healthy := database.healthy && external.healthy;
    ServiceHealth(if healthy then "UP" else "DOWN", map["database" := Database(database), "externalServices" := External(external)])
  }

  /** The verdict in terms of the backends: up exactly when the database answers fully and the GET completes. */
  lemma HealthVerdict(probe: DatabaseProbe, call: HealthCall)
    ensures GetServiceHealth(probe, call).status == "UP" <==> DatabaseReachable(probe) && call.Ok?
  {
  }

  /** `getDatabaseConnectivity`: the database probe's own report. */
  function GetDatabaseConnectivity(args: Args, probe: DatabaseProbe): (h: DatabaseHealth)
    ensures h == GetServiceHealth(probe, Ok(None)).components["database"].db
  {
    CheckDatabaseHealth(probe)
  }

  // ---------------------------------------------------------------------
  // get_external_service_status
  // ---------------------------------------------------------------------

  /** The names `checkSpecificService` recognises, after upper-casing. */
  const RecognizedNames: set<string> := {"CUI_INTEGRATION_SERVICE", "CUI-INTEGRATION-SERVICE"}

  predicate Recognized(serviceName: string) {
    UpperAscii(serviceName) in RecognizedNames
  }

  /** The report of `checkSpecificService`; the check time is not modelled. */
  datatype SpecificStatus = SpecificStatus(
    serviceName: string,
    status: string,
    responseTime: Option<string>,
    error: Option<string>)

  /**
   * `checkSpecificService`: an unrecognised name is reported as UNKNOWN
   * without calling anything; a recognised one is UP or DOWN by the GET.
   * The name is echoed as given.
   */
  function CheckSpecificService(serviceName: string, call: HealthCall): (r: SpecificStatus)
    ensures r.serviceName == serviceName
    ensures r.status == "UNKNOWN" <==> !Recognized(serviceName)
    ensures !Recognized(serviceName) ==> r.error == Some("Service not recognized")
    ensures Recognized(serviceName) ==> (r.status == "UP" <==> call.Ok?)
    ensures Recognized(serviceName) && call.Err? ==> r.status == "DOWN" && r.error == Some(call.error)
  {
    if UpperAscii(serviceName) in RecognizedNames then
      match call
      case Ok(_) => SpecificStatus(serviceName, "UP", Some("< 500ms"), None)
      case Err(m) => SpecificStatus(serviceName, "DOWN", None, Some(m))
    else
      SpecificStatus(serviceName, "UNKNOWN", None, Some("Service not recognized"))
  }

  /** An unrecognised name does not depend on the service at all. */
  lemma UnknownNameIgnoresService(serviceName: string, call1: HealthCall, call2: HealthCall)
    requires !Recognized(serviceName)
    ensures CheckSpecificService(serviceName, call1) == CheckSpecificService(serviceName, call2)
  {
  }

  /** Names that differ only in ASCII letter case get the same status. */
  lemma NameMatchIgnoresCase(name1: string, name2: string, call: HealthCall)
    requires UpperAscii(name1) == UpperAscii(name2)
    ensures CheckSpecificService(name1, call).status == CheckSpecificService(name2, call).status
  {
  }

  /** The integration service answers to its lower-case name. */
  lemma LowerCaseNameRecognized()
    ensures Recognized("cui-integration-service")
  {
    assert UpperAscii("cui-integration-service") == "CUI-INTEGRATION-SERVICE";
  }

  datatype ExternalStatus = Specific(specific: SpecificStatus) | Aggregate(aggregate: ExternalHealth)

  /** `getExternalServiceStatus`: the by-name check when `service_name` is given, the aggregate probe otherwise. */
  function GetExternalServiceStatus(args: Args, call: HealthCall): (r: Result<ExternalStatus, Failure>)
    ensures CastString(args, "service_name").Err? ==> r == Err(CastString(args, "service_name").error)
    ensures "service_name" in args && args["service_name"].Str? ==>
      r == Ok(Specific(CheckSpecificService(args["service_name"].s, call)))
    ensures Get(args, "service_name").None? ==> r == Ok(Aggregate(CheckExternalServiceHealth(call)))
  {
    var serviceName :- CastString(args, "service_name");
    match serviceName
    case Some(name) => Ok(Specific(CheckSpecificService(name, call)))
    case None => Ok(Aggregate(CheckExternalServiceHealth(call)))
  }

  // ---------------------------------------------------------------------
  // get_sync_statistics
  // ---------------------------------------------------------------------

  /** The time-range table of `getSyncStatistics`, written out a second time in the source. */
  function StatisticsHours(timeRange: string): (h: Int32)
    ensures h == SyncService.SyncHours(timeRange)
  {
    match timeRange
    case "1h" => 1
    case "24h" => 24
    case "7d" => 168
    case "30d" => 720
    case _ => 24
  }

  /** The integer columns of the statistics row; the two rates are not modelled. */
  datatype SyncStatistics = SyncStatistics(totalSyncs: Int32, successfulSyncs: Int32, failedSyncs: Int32)

  datatype StatisticsReport = StatisticsReport(timeRange: string, statistics: SyncStatistics)

  /**
   * `getSyncStatistics`: the same `time_range` handling as the sync
   * metrics (default "24h" when absent, a null value fails at the switch).
   */
  function GetSyncStatistics(args: Args, statistics: Int32 -> Reply<SyncStatistics>): (r: Result<StatisticsReport, Failure>)
    ensures CastStringOrDefault(args, "time_range", "24h").Err? ==> r == Err(CastStringOrDefault(args, "time_range", "24h").error)
    ensures "time_range" in args && args["time_range"].Null? ==> r.Err? && r.error.NullPointer?
    ensures r.Ok? ==>
      && CastStringOrDefault(args, "time_range", "24h") == Ok(Some(r.value.timeRange))
      && statistics(SyncService.SyncHours(r.value.timeRange)) == Ok(r.value.statistics)
    ensures CastStringOrDefault(args, "time_range", "24h").Ok? && CastStringOrDefault(args, "time_range", "24h").value.Some? ==>
      var reply := statistics(SyncService.SyncHours(CastStringOrDefault(args, "time_range", "24h").value.value));
      && (reply.Ok? <==> r.Ok?)
      && (reply.Err? ==> r == Err(Failure.Backend(reply.error)))
  {
    var timeRange :- CastStringOrDefault(args, "time_range", "24h");
    match timeRange
    case None => Err(NullPointer(Some("Cannot invoke \"String.hashCode()\" because \"timeRange\" is null")))
    case Some(range) =>
      var stats :- Raised(statistics(StatisticsHours(range)));
      Ok(StatisticsReport(range, stats))
  }

  /** With no arguments the statistics cover the last 24 hours. */
  lemma StatisticsDefaultDay(statistics: Int32 -> Reply<SyncStatistics>)
    requires statistics(24).Ok?
    ensures GetSyncStatistics(map[], statistics) == Ok(StatisticsReport("24h", statistics(24).value))
  {
  }

  // ---------------------------------------------------------------------
  // get_kafka_stream_status
  // ---------------------------------------------------------------------

  datatype StreamStatus = StreamStatus(name: string, state: string, lag: int)

  datatype KafkaStatus = KafkaStatus(status: string, streams: seq<StreamStatus>)

  /** `getKafkaStreamStatus`: a fixed report (the timestamp is not modelled). */
  function GetKafkaStreamStatus(args: Args): (r: KafkaStatus)
    ensures r.status == "RUNNING"
    ensures |r.streams| == 2
    ensures forall i | 0 <= i < |r.streams| :: r.streams[i].state == "RUNNING" && r.streams[i].lag >= 0
  {
    KafkaStatus("RUNNING", [
      StreamStatus("user-cui-tenant-mapping-status", "RUNNING", 0),
      StreamStatus("cui-entity-sync-retry", "RUNNING", 5)])
  }
}

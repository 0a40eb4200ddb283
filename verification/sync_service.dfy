/**
 * The synchronization handlers: a page of the sync-retry table with its
 * pagination block, and per-status sync metrics with their integer summary.
 */
module SyncService {
  import opened Wrappers
  import opened JavaLang
  import opened Arguments
  import opened Backend

  /** A row of the retry table; the four timestamps are not modelled. */
  datatype SyncStatusDto = SyncStatusDto(
    entityId: Option<string>,
    entityType: Option<string>,
    syncType: Option<string>,
    status: Option<string>,
    errorMessage: Option<string>,
    retryCount: Int32,
    maxRetries: Int32)

  /** What the retry-table query is asked for: the optional entity-type filter, LIMIT and OFFSET. */
  datatype RetryQuery = RetryQuery(entityType: Option<string>, limit: Int32, offset: Int32)

  /** A `COUNT(*)` read back as an `Integer`. */
  type Count = x: int | 0 <= x <= 0x7fff_ffff

  /** One group of the metrics query; the average retry count is not modelled. */
  datatype MetricRow = MetricRow(entityType: string, syncType: string, status: string, count: Int32)

  /** The data-store calls of the sync handlers. */
  datatype SyncStore = SyncStore(
    retryRows: RetryQuery -> Reply<seq<SyncStatusDto>>,
    // the count query, under the same entity-type filter
    retryCount: Option<string> -> Reply<Count>,
    // the metrics of the last so many hours
    metricRows: Int32 -> Reply<seq<MetricRow>>)

  // ---------------------------------------------------------------------
  // Arguments
  // ---------------------------------------------------------------------

  /**
   * `getIntegerArgument`: the default when the argument is missing, a
   * number truncated to an int, anything else parsed from its `toString()`.
   */
  function GetIntegerArgument(args: Args, key: string, default: Int32): (r: Result<Int32, Failure>)
    ensures Get(args, key).None? ==> r == Ok(default)
    ensures key in args && args[key].Num? ==> r == Ok(Wrap32(args[key].n))
    ensures Get(args, key).Some? && !args[key].Num? ==>
      match ParseInt(ToJavaString(args[key]))
      case Some(v) => r == Ok(v)
      case None => r == Err(NumberFormat(ToJavaString(args[key])))
  {
    match Get(args, key)
    case None => Ok(default)
    case Some(v) =>
      if v.Num? then Ok(Wrap32(v.n))
      else match ParseInt(ToJavaString(v))
        case Some(n) => Ok(n)
        case None => Err(NumberFormat(ToJavaString(v)))
  }

  /** A number and its decimal string read as the same int. */
  lemma IntegerAndDecimalAgree(key: string, n: Int32, default: Int32)
    ensures GetIntegerArgument(map[key := Num(n)], key, default) == Ok(n)
    ensures GetIntegerArgument(map[key := Str(IntToDecimal(n))], key, default) == Ok(n)
  {
    ParseIntOfDecimal(n);
  }

  // ---------------------------------------------------------------------
  // get_sync_retry_status
  // ---------------------------------------------------------------------

  /** The entity-type filter both queries use: present only for a non-empty type. */
  function EntityFilter(entityType: Option<string>): (f: Option<string>)
    ensures f.Some? <==> entityType.Some? && entityType.value != ""
    ensures f.Some? ==> f == entityType
  {
    match entityType
    case Some(t) => if t == "" then None else Some(t)
    case None => None
  }

  /**
   * `(totalCount + size - 1) / size` as written: int addition wraps, and the
   * quotient truncates toward zero.
   */
  function TotalPagesAsWritten(total: Count, size: Int32): (r: Result<Int32, Failure>)
    ensures size == 0 <==> r == Err(DivideByZero)
  {
    if size == 0 then Err(DivideByZero)
    else Ok(Wrap32(TruncDiv(Wrap32(total + size - 1), size)))
  }

  /**
   * Java's `Math.ceilDiv`: the quotient rounded toward positive infinity.
   * For a positive size this is the written formula, evaluated without
   * overflow.
   */
  function CeilDiv(total: Count, size: Int32): (q: Int32)
    requires size != 0
    ensures size > 0 ==> 0 <= q <= total && q * size >= total && (q - 1) * size < total
    ensures size < 0 ==> -(total as int) <= q <= 0 && q * size <= total && (q - 1) * size > total
  {
    if size > 0 then
      CeilingOfPositive(total, size);
      var q := (total + size - 1) / size;
      q
    else
      CeilingOfNegative(total, size);
      var q := -(total / (-(size as int)));
      q
  }

  /** Multiplying by a positive number keeps order. */
  lemma MulMonotone(a: int, b: int, s: int)
    requires a <= b && s > 0
    ensures a * s <= b * s
  {
    assert b * s - a * s == (b - a) * s;
  }

  lemma CeilingOfPositive(t: int, s: int)
    requires s > 0 && 0 <= t
    ensures var q := (t + s - 1) / s; 0 <= q <= t && q * s >= t && (q - 1) * s < t
  {
    var q := (t + s - 1) / s;
    var m := (t + s - 1) % s;
    assert t + s - 1 == q * s + m && 0 <= m < s;
    DivNonNegative(t + s - 1, s);
    assert (q - 1) * s == q * s - s;
    assert q <= t by {
      if q > t {
        MulMonotone(1, s, q - 1);
      }
    }
  }

  lemma CeilingOfNegative(t: int, s: int)
    requires s < 0 && 0 <= t
    ensures var q := -(t / (-s)); -t <= q <= 0 && q * s <= t && (q - 1) * s > t
  {
    var d := -s;
    var f := t / d;
    var m := t % d;
    assert t == f * d + m && 0 <= m < d;
    DivNonNegative(t, d);
    assert f <= t by {
      if f > t {
        MulMonotone(1, d, f);
      }
    }
    assert (-f) * s == f * d;
    assert (-f - 1) * s == f * d + d;
  }

  /**
   * `totalPages` as evidently intended: for a positive size, the number of
   * pages of `size` rows needed for `total` rows, without intermediate
   * overflow. A size of zero still divides by zero, and a negative size,
   * for which no page count is meaningful, keeps the written formula.
   */
  function TotalPages(total: Count, size: Int32): (r: Result<Int32, Failure>)
    ensures size == 0 <==> r == Err(DivideByZero)
    ensures size > 0 ==> r.Ok? && 0 <= r.value <= total
    ensures size > 0 ==> r.value * size >= total && (r.value - 1) * size < total
    ensures size < 0 ==> r == TotalPagesAsWritten(total, size)
  {
    if size == 0 then Err(DivideByZero)
    else if size < 0 then TotalPagesAsWritten(total, size)
    else Ok(CeilDiv(total, size))
  }

  /**
   * The correction only touches the overflow: the written formula and the
   * corrected one agree for every negative size, and for every positive
   * size whose addition stays within an int.
   */
  lemma CorrectionIsConservative(total: Count, size: Int32)
    requires size < 0 || (size > 0 && total + size - 1 <= MaxInt)
    ensures TotalPagesAsWritten(total, size) == TotalPages(total, size)
  {
    if size > 0 {
      DivNonNegative(total + size - 1, size);
    }
  }

  /**
   * Conversely, the correction changes every positive size whose addition
   * overflows: the wrapped sum is negative, so the written quotient is at
   * most zero, while at least one page is needed.
   */
  lemma {:induction false} CorrectionOnlyOnOverflow(total: Count, size: Int32)
    requires size > 0 && total + size - 1 > MaxInt
    ensures TotalPagesAsWritten(total, size) != TotalPages(total, size)
  {
    var sum := total + size - 1;
    Wrap32Congruent(sum, sum - 0x1_0000_0000);
    var w := Wrap32(sum);
    assert w == sum - 0x1_0000_0000 < 0;
    var q := TruncDiv(w, size);
    assert q <= 0;
    assert Wrap32(q) == q;
    var c := TotalPages(total, size).value;
    assert c >= 1;
  }

  /** The overflow: 5 rows in pages of `Integer.MAX_VALUE` are one page, not zero. */
  lemma TotalPagesOverflow()
    ensures TotalPagesAsWritten(5, MaxInt) == Ok(0)
    ensures TotalPages(5, MaxInt) == Ok(1)
  {
    assert Wrap32(5 + MaxInt - 1) == -2147483645;
  }

  datatype Pagination = Pagination(page: Int32, size: Int32, totalElements: Count, totalPages: Int32)

  datatype RetryStatusPage = RetryStatusPage(retryStatuses: seq<SyncStatusDto>, pagination: Pagination)

  /**
   * `getSyncRetryStatus`: `page` (default 0) and `size` (default 20), the
   * optional entity type, the page of rows, the count under the same filter,
   * and the page count, in that order.
   */
  function GetSyncRetryStatus(args: Args, store: SyncStore): (r: Result<RetryStatusPage, Failure>)
    ensures GetIntegerArgument(args, "page", 0).Err? ==> r == Err(GetIntegerArgument(args, "page", 0).error)
    ensures GetIntegerArgument(args, "page", 0).Ok? && GetIntegerArgument(args, "size", 20).Err? ==>
      r == Err(GetIntegerArgument(args, "size", 20).error)
    ensures GetIntegerArgument(args, "page", 0).Ok? && GetIntegerArgument(args, "size", 20).Ok? ==>
      CastString(args, "entity_type").Err? ==> r == Err(CastString(args, "entity_type").error)
    ensures GetIntegerArgument(args, "page", 0).Ok? && GetIntegerArgument(args, "size", 20).Ok? ==>
      CastString(args, "entity_type").Ok? ==>
      var page := GetIntegerArgument(args, "page", 0).value;
      var size := GetIntegerArgument(args, "size", 20).value;
      var filter := EntityFilter(CastString(args, "entity_type").value);
      var rows := store.retryRows(RetryQuery(filter, size, Wrap32(page * size)));
      && (rows.Err? ==> r == Err(Failure.Backend(rows.error)))
      && (rows.Ok? && store.retryCount(filter).Err? ==> r == Err(Failure.Backend(store.retryCount(filter).error)))
      && (rows.Ok? && store.retryCount(filter).Ok? && size != 0 ==> r.Ok?)
    ensures r.Ok? ==>
      var p := r.value.pagination;
      && GetIntegerArgument(args, "page", 0) == Ok(p.page)
      && GetIntegerArgument(args, "size", 20) == Ok(p.size)
      && CastString(args, "entity_type").Ok?
      && var filter := EntityFilter(CastString(args, "entity_type").value);
      && store.retryRows(RetryQuery(filter, p.size, Wrap32(p.page * p.size))) == Ok(r.value.retryStatuses)
      && store.retryCount(filter) == Ok(p.totalElements)
      && p.size != 0
      && (p.size > 0 ==> p.totalPages * p.size >= p.totalElements && (p.totalPages - 1) * p.size < p.totalElements)
      && (p.size < 0 ==> TotalPagesAsWritten(p.totalElements, p.size) == Ok(p.totalPages))
    ensures GetIntegerArgument(args, "size", 20) == Ok(0) ==> r.Err?
  {
    var page :- GetIntegerArgument(args, "page", 0);
    var size :- GetIntegerArgument(args, "size", 20);
    var entityType :- CastString(args, "entity_type");
    var filter := EntityFilter(entityType);
    var rows :- Raised(store.retryRows(RetryQuery(filter, size, Wrap32(page * size))));
    var total :- Raised(store.retryCount(filter));
    var totalPages :- TotalPages(total, size);
    Ok(RetryStatusPage(rows, Pagination(page, size, total, totalPages)))
  }

  /** With no arguments: the first 20 rows, unfiltered. */
  lemma DefaultPage(store: SyncStore)
    requires store.retryRows(RetryQuery(None, 20, 0)).Ok? && store.retryCount(None).Ok?
    ensures GetSyncRetryStatus(map[], store).Ok?
    ensures GetSyncRetryStatus(map[], store).value.retryStatuses == store.retryRows(RetryQuery(None, 20, 0)).value
    ensures GetSyncRetryStatus(map[], store).value.pagination.page == 0
    ensures GetSyncRetryStatus(map[], store).value.pagination.size == 20
  {
  }

  /** A negative size keeps the written formula: no rows in pages of -1 are reported as 2 pages. */
  lemma NegativeSizeAsWritten(store: SyncStore)
    requires store.retryRows(RetryQuery(None, -1, 0)).Ok? && store.retryCount(None) == Ok(0)
    ensures GetSyncRetryStatus(map["size" := Num(-1)], store).Ok?
    ensures GetSyncRetryStatus(map["size" := Num(-1)], store).value.pagination.totalPages == 2
  {
    assert TotalPagesAsWritten(0, -1) == Ok(2);
  }

  /** Page 1 of size 10 skips the first ten rows and takes the next ten. */
  lemma SecondPageOffset(store: SyncStore)
    ensures var args := map["page" := Num(1), "size" := Num(10)];
      GetSyncRetryStatus(args, store) ==
        var rows :- Raised(store.retryRows(RetryQuery(None, 10, 10)));
        var total :- Raised(store.retryCount(None));
        var totalPages :- TotalPages(total, 10);
        Ok(RetryStatusPage(rows, Pagination(1, 10, total, totalPages)))
  {
    var args := map["page" := Num(1), "size" := Num(10)];
    assert Get(args, "entity_type").None?;
  }

  // ---------------------------------------------------------------------
  // get_sync_metrics
  // ---------------------------------------------------------------------

  /** The time ranges the table knows. */
  const KnownRanges: set<string> := {"1h", "24h", "7d", "30d"}

  /**
   * The number of hours a duration like "7d" or "24h" spells: a decimal
   * count followed by the unit `h` or `d`.
   */
  function DurationHours(range: string): int
    requires |range| >= 2 && IsNumeral(range[..|range| - 1])
  {
    var n := NumeralValue(range[..|range| - 1]);
    if range[|range| - 1] == 'd' then n * 24 else n
  }

  /** The hours of the metrics window: the range's own hours when the table knows it, a day otherwise. */
  function SyncHours(timeRange: string): (h: Int32)
    ensures timeRange !in KnownRanges ==> h == 24
  {
    match timeRange
    case "1h" => 1
    case "24h" => 24
    case "7d" => 168
    case "30d" => 720
    case _ => 24
  }

  /** Each range the table knows maps to the hours it spells. */
  lemma SyncHoursAreDurations(range: string)
    requires range in KnownRanges
    ensures |range| >= 2 && IsNumeral(range[..|range| - 1])
    ensures SyncHours(range) == DurationHours(range)
  {
    assert "1h"[..1] == "1" && "24h"[..2] == "24" && "7d"[..1] == "7" && "30d"[..2] == "30";
    assert "24"[..1] == "2" && "30"[..1] == "3";
    assert Unsigned("1") == "1" && Unsigned("24") == "24" && Unsigned("7") == "7" && Unsigned("30") == "30";
    assert DigitsValue("24") == 24 && DigitsValue("30") == 30;
  }

  /** Whether a row takes part in a sum: every row, or only the successful ones. */
  predicate Selected(row: MetricRow, onlySuccess: bool) {
    !onlySuccess || row.status == "SUCCESS"
  }

  /** `IntStream.sum` over the selected counts: each addition wraps to an int. */
  function StreamSum(rows: seq<MetricRow>, onlySuccess: bool): Int32 {
    if |rows| == 0 then 0
    else
      var last := rows[|rows| - 1];
      var before := StreamSum(rows[..|rows| - 1], onlySuccess);
      if Selected(last, onlySuccess) then Wrap32(before + last.count) else before
  }

  /** The exact sum of the selected counts. */
  function ExactSum(rows: seq<MetricRow>, onlySuccess: bool): int {
    if |rows| == 0 then 0
    else
      var last := rows[|rows| - 1];
      ExactSum(rows[..|rows| - 1], onlySuccess) + (if Selected(last, onlySuccess) then last.count else 0)
  }

  lemma {:induction false} StreamSumWrapsExactSum(rows: seq<MetricRow>, onlySuccess: bool)
    ensures StreamSum(rows, onlySuccess) == Wrap32(ExactSum(rows, onlySuccess))
    decreases |rows|
  {
    if |rows| > 0 {
      var prefix := rows[..|rows| - 1];
      var last := rows[|rows| - 1];
      StreamSumWrapsExactSum(prefix, onlySuccess);
      var e := ExactSum(prefix, onlySuccess);
      if Selected(last, onlySuccess) {
        Wrap32Congruent(Wrap32(e) + last.count, e + last.count);
      }
    }
  }

  /** With non-negative counts, the successful operations are some of all the operations. */
  lemma {:induction false} SuccessesWithinTotal(rows: seq<MetricRow>)
    requires forall i | 0 <= i < |rows| :: rows[i].count >= 0
    ensures 0 <= ExactSum(rows, true) <= ExactSum(rows, false)
    decreases |rows|
  {
    if |rows| > 0 {
      SuccessesWithinTotal(rows[..|rows| - 1]);
    }
  }

  /** The integer part of the summary; the success rate is not modelled. */
  datatype Summary = Summary(totalOperations: Int32, successCount: Int64)

  /**
   * `calculateSummary`: the count over all rows and over the "SUCCESS" rows,
   * both summed as ints (the second then widened to a long).
   */
  function CalculateSummary(rows: seq<MetricRow>): (s: Summary)
    ensures s.totalOperations == Wrap32(ExactSum(rows, false))
    ensures s.successCount == Wrap32(ExactSum(rows, true))
    ensures (forall i | 0 <= i < |rows| :: rows[i].count >= 0) && ExactSum(rows, false) <= MaxInt ==>
      0 <= s.successCount <= s.totalOperations
  {
    StreamSumWrapsExactSum(rows, false);
    StreamSumWrapsExactSum(rows, true);
    var s := Summary(StreamSum(rows, false), StreamSum(rows, true));
    if forall i | 0 <= i < |rows| :: rows[i].count >= 0 then
      SuccessesWithinTotal(rows);
      s
    else
      s
  }

  datatype SyncMetrics = SyncMetrics(timeRange: string, metrics: seq<MetricRow>, summary: Summary)

  /**
   * `getSyncMetrics`: `time_range` defaults to "24h" only when the key is
   * absent; a null value reaches the switch and fails there.
   */
  function GetSyncMetrics(args: Args, store: SyncStore): (r: Result<SyncMetrics, Failure>)
    ensures r.Ok? ==>
      && CastStringOrDefault(args, "time_range", "24h") == Ok(Some(r.value.timeRange))
      && store.metricRows(SyncHours(r.value.timeRange)) == Ok(r.value.metrics)
      && r.value.summary == CalculateSummary(r.value.metrics)
    ensures "time_range" in args && args["time_range"].Null? && CastString(args, "metric_type").Ok? ==>
      r.Err? && r.error.NullPointer?
    ensures CastStringOrDefault(args, "time_range", "24h").Err? ==> r == Err(CastStringOrDefault(args, "time_range", "24h").error)
    ensures CastStringOrDefault(args, "time_range", "24h").Ok? && CastString(args, "metric_type").Err? ==>
      r == Err(CastString(args, "metric_type").error)
    ensures CastStringOrDefault(args, "time_range", "24h").Ok? && CastStringOrDefault(args, "time_range", "24h").value.Some? ==>
      CastString(args, "metric_type").Ok? ==>
      var rows := store.metricRows(SyncHours(CastStringOrDefault(args, "time_range", "24h").value.value));
      && (rows.Ok? <==> r.Ok?)
      && (rows.Err? ==> r == Err(Failure.Backend(rows.error)))
  {
    var timeRange :- CastStringOrDefault(args, "time_range", "24h");
    var metricType :- CastString(args, "metric_type");
    match timeRange
    case None => Err(NullPointer(Some("Cannot invoke \"String.hashCode()\" because \"timeRange\" is null")))
    case Some(range) =>
      var rows :- Raised(store.metricRows(SyncHours(range)));
      Ok(SyncMetrics(range, rows, CalculateSummary(rows)))
  }

  /** An unrecognised range is echoed as given, and reads the last day. */
  lemma UnknownRangeEchoed(args: Args, store: SyncStore, range: string)
    requires "time_range" in args && args["time_range"] == Str(range) && range !in KnownRanges
    requires CastString(args, "metric_type").Ok?
    requires store.metricRows(24).Ok?
    ensures GetSyncMetrics(args, store) == Ok(SyncMetrics(range, store.metricRows(24).value, CalculateSummary(store.metricRows(24).value)))
  {
  }
}

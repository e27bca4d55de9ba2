/**
 * The decisions the HTTP API makes around the chain and the database: the
 * sensor-data gate (only out-of-range readings are logged and reach the
 * chain), batch creation, the status whitelist, the admin contract-address
 * table, and the compliance analysis of the audit report.
 *
 * The database and the node are outside the model: a handler returns the
 * writes and transactions it attempts, in order, and learns their outcome
 * from the function parameters `db` and `node`.
 */
module Server {
  import opened Wrappers
  import opened Js
  import opened Artifacts
  import opened Web3Lib
  import ValidateReadings

  /** The message of the `TypeError` thrown when a contract object lacks a method. */
  function NotAFunction(objectName: string, methodName: string): string {
    objectName + ".methods." + methodName + " is not a function"
  }

  /** A write to the database or a transaction sent to the node. */
  datatype Effect =
    | LogAlert(batchId: Json, kind: string, message: string)
    | InsertBatch(row: BatchRow)
    | UpdateStatus(batchNumber: Option<int>, status: string)
    | Transaction(request: TxRequest)

  /** The database's answer to a write: `None` when it succeeds, else the message it throws. */
  type Database = Effect -> Option<string>

  // ---------------------------------------------------------------------------
  // Sensor data
  // ---------------------------------------------------------------------------

  /** A batch's limits as the database stores them. */
  datatype Limits = Limits(maxTemp: int, minTemp: int, maxHumidity: int, minHumidity: int)

  /** The four bound checks of a reading. */
  datatype Bound = TempMax | TempMin | HumidityMax | HumidityMin

  /** The position of a check in the order the handler applies them. */
  function Rank(b: Bound): nat {
    match b
    case TempMax => 0
    case TempMin => 1
    case HumidityMax => 2
    case HumidityMin => 3
  }

  /** The reading breaks bound `b` (a reading that is not a number breaks none). */
  predicate Breaks(b: Bound, limits: Limits, temperature: Json, humidity: Json) {
    match b
    case TempMax => Above(temperature, limits.maxTemp)
    case TempMin => Below(temperature, limits.minTemp)
    case HumidityMax => Above(humidity, limits.maxHumidity)
    case HumidityMin => Below(humidity, limits.minHumidity)
  }

  /** Every bound the reading breaks, each once, in check order. */
  function BrokenBounds(limits: Limits, temperature: Json, humidity: Json): seq<Bound> {
    Kept(TempMax, limits, temperature, humidity) + Kept(TempMin, limits, temperature, humidity)
    + Kept(HumidityMax, limits, temperature, humidity) + Kept(HumidityMin, limits, temperature, humidity)
  }

  /** The broken bounds are exactly the bounds the reading breaks, each once, in check order. */
  lemma BrokenBoundsMeaning(limits: Limits, temperature: Json, humidity: Json)
    ensures var bs := BrokenBounds(limits, temperature, humidity);
      && (forall b :: b in bs <==> Breaks(b, limits, temperature, humidity))
      && (forall i, j :: 0 <= i < j < |bs| ==> Rank(bs[i]) < Rank(bs[j]))
  {
  }

  /** `[b]` when the reading breaks `b`, else nothing. */
  function Kept(b: Bound, limits: Limits, temperature: Json, humidity: Json): seq<Bound> {
    if Breaks(b, limits, temperature, humidity) then [b] else []
  }

  /** An alert: the bound broken, the value read, and the limit it broke. */
  datatype Alert = Alert(bound: Bound, reading: Json, limit: int) {
    /** The alert's text, as pushed onto the list and logged. */
    function Text(): string {
      match bound
      case TempMax => "Temperature too high: " + Display(reading) + "°C (max: " + Decimal(limit) + "°C)"
      case TempMin => "Temperature too low: " + Display(reading) + "°C (min: " + Decimal(limit) + "°C)"
      case HumidityMax => "Humidity too high: " + Display(reading) + "% (max: " + Decimal(limit) + "%)"
      case HumidityMin => "Humidity too low: " + Display(reading) + "% (min: " + Decimal(limit) + "%)"
    }
  }

  /** The alert for bound `b`: the temperature or humidity read, against the batch's limit for `b`. */
  function AlertFor(b: Bound, limits: Limits, temperature: Json, humidity: Json): Alert {
    match b
    case TempMax => Alert(TempMax, temperature, limits.maxTemp)
    case TempMin => Alert(TempMin, temperature, limits.minTemp)
    case HumidityMax => Alert(HumidityMax, humidity, limits.maxHumidity)
    case HumidityMin => Alert(HumidityMin, humidity, limits.minHumidity)
  }

  /** `[AlertFor(b)]` when the reading breaks `b`, else nothing. */
  function AlertIf(b: Bound, limits: Limits, temperature: Json, humidity: Json): seq<Alert> {
    if Breaks(b, limits, temperature, humidity) then [AlertFor(b, limits, temperature, humidity)] else []
  }

  /** The alert list of a reading. */
  function Alerts(limits: Limits, temperature: Json, humidity: Json): (r: seq<Alert>)
    ensures |r| <= 4
    ensures forall a :: a in r ==> Breaks(a.bound, limits, temperature, humidity)
    ensures forall b :: Breaks(b, limits, temperature, humidity) ==> AlertFor(b, limits, temperature, humidity) in r
  {
    AlertIf(TempMax, limits, temperature, humidity) + AlertIf(TempMin, limits, temperature, humidity)
    + AlertIf(HumidityMax, limits, temperature, humidity) + AlertIf(HumidityMin, limits, temperature, humidity)
  }

  /** `alerts` are the alerts for `bs`, position by position. */
  predicate AlertsMatch(alerts: seq<Alert>, bs: seq<Bound>, limits: Limits, temperature: Json, humidity: Json) {
    |alerts| == |bs| && forall i :: 0 <= i < |bs| ==> alerts[i] == AlertFor(bs[i], limits, temperature, humidity)
  }

  lemma AlertsMatchConcat(a: seq<Alert>, bs: seq<Bound>, a2: seq<Alert>, bs2: seq<Bound>,
                          limits: Limits, temperature: Json, humidity: Json)
    requires AlertsMatch(a, bs, limits, temperature, humidity) && AlertsMatch(a2, bs2, limits, temperature, humidity)
    ensures AlertsMatch(a + a2, bs + bs2, limits, temperature, humidity)
  {
  }

  /**
   * The alert list holds one alert per broken bound, in check order: the
   * i-th alert is for the i-th broken bound.
   */
  lemma AlertPerBrokenBound(limits: Limits, temperature: Json, humidity: Json)
    ensures AlertsMatch(Alerts(limits, temperature, humidity), BrokenBounds(limits, temperature, humidity),
                        limits, temperature, humidity)
  {
    var a1, b1 := AlertIf(TempMax, limits, temperature, humidity), Kept(TempMax, limits, temperature, humidity);
    var a2, b2 := AlertIf(TempMin, limits, temperature, humidity), Kept(TempMin, limits, temperature, humidity);
    var a3, b3 := AlertIf(HumidityMax, limits, temperature, humidity), Kept(HumidityMax, limits, temperature, humidity);
    var a4, b4 := AlertIf(HumidityMin, limits, temperature, humidity), Kept(HumidityMin, limits, temperature, humidity);
    AlertsMatchConcat(a1, b1, a2, b2, limits, temperature, humidity);
    AlertsMatchConcat(a1 + a2, b1 + b2, a3, b3, limits, temperature, humidity);
    AlertsMatchConcat(a1 + a2 + a3, b1 + b2 + b3, a4, b4, limits, temperature, humidity);
  }

  /** The handler's threshold check, which appends one alert per broken bound. */
  method CollectAlerts(limits: Limits, temperature: Json, humidity: Json) returns (alerts: seq<Alert>)
    ensures alerts == Alerts(limits, temperature, humidity)
  {
    alerts := [];
    ghost var expected := AlertIf(TempMax, limits, temperature, humidity);
    if Above(temperature, limits.maxTemp) {
      alerts := alerts + [Alert(TempMax, temperature, limits.maxTemp)];
    }
    assert alerts == expected;
    expected := expected + AlertIf(TempMin, limits, temperature, humidity);
    if Below(temperature, limits.minTemp) {
      alerts := alerts + [Alert(TempMin, temperature, limits.minTemp)];
    }
    assert alerts == expected;
    expected := expected + AlertIf(HumidityMax, limits, temperature, humidity);
    if Above(humidity, limits.maxHumidity) {
      alerts := alerts + [Alert(HumidityMax, humidity, limits.maxHumidity)];
    }
    assert alerts == expected;
    expected := expected + AlertIf(HumidityMin, limits, temperature, humidity);
    if Below(humidity, limits.minHumidity) {
      alerts := alerts + [Alert(HumidityMin, humidity, limits.minHumidity)];
    }
    assert alerts == expected;
  }

  /** With consistent limits a reading raises at most one temperature and one humidity alert. */
  lemma AtMostTwoAlerts(limits: Limits, temperature: Json, humidity: Json)
    requires limits.minTemp <= limits.maxTemp && limits.minHumidity <= limits.maxHumidity
    ensures |Alerts(limits, temperature, humidity)| <= 2
  {
  }

  /** The limits of the sample batch the test endpoint inserts. */
  const SampleLimits: Limits := Limits(20, -7, 50, 20)

  /** The check of the validator that corresponds to each of its verdicts. */
  function BoundOf(v: ValidateReadings.Violation): Bound {
    match v
    case TempHigh => TempMax
    case TempLow => TempMin
    case HumHigh => HumidityMax
    case HumLow => HumidityMin
  }

  /**
   * The handler and the validator agree on batches with the validator's own
   * limits: a reading raises no alert exactly when the validator accepts it,
   * and otherwise the first alert is for the bound the validator reports.
   */
  lemma AlertsAgreeWithValidator(r: ValidateReadings.CakeReading)
    ensures SampleLimits == Limits(ValidateReadings.MaxTemp, ValidateReadings.MinTemp,
                                   ValidateReadings.MaxHumidity, ValidateReadings.MinHumidity)
    ensures BrokenBounds(SampleLimits, Num(r.temperature), Num(r.humidity)) == []
        <==> ValidateReadings.Violates(r).None?
    ensures ValidateReadings.Violates(r).Some? ==>
      BrokenBounds(SampleLimits, Num(r.temperature), Num(r.humidity))[0] == BoundOf(ValidateReadings.Violates(r).value)
  {
    var bs := BrokenBounds(SampleLimits, Num(r.temperature), Num(r.humidity));
    BrokenBoundsMeaning(SampleLimits, Num(r.temperature), Num(r.humidity));
    if ValidateReadings.Violates(r).Some? {
      var b := BoundOf(ValidateReadings.Violates(r).value);
      assert b in bs;
      assert forall c :: c in bs ==> Rank(b) <= Rank(c);
      assert bs[0] in bs;
    }
  }

  /** The body of a sensor-data request. */
  datatype SensorBody = SensorBody(batchId: Json, timestamp: Json, temperature: Json, humidity: Json)

  /** The answer to a sensor-data request. */
  datatype SensorReply =
    | SensorError(status: int, error: string)
    | Clean // the reading is within limits: nothing is logged or sent
    | Submitted(batchId: Json, temperature: Json, humidity: Json, tx: TxResult)

  /** The 400 check: a falsy batch id, or a temperature or humidity left out. */
  predicate MissingSensorData(body: SensorBody) {
    !Truthy(body.batchId) || body.temperature.Undefined? || body.humidity.Undefined?
  }

  /** The alert writes for a batch, one per alert, in alert order. */
  function AlertLogs(batchId: Json, alerts: seq<Alert>): (logs: seq<Effect>)
    ensures |logs| == |alerts|
    ensures forall i :: 0 <= i < |alerts| ==> logs[i] == LogAlert(batchId, "SENSOR_ALERT", alerts[i].Text())
  {
    seq(|alerts|, i requires 0 <= i < |alerts| => LogAlert(batchId, "SENSOR_ALERT", alerts[i].Text()))
  }

  /**
   * Writes `logs` one after the other until one throws: the writes attempted
   * and the message of the failing one, if any.
   */
  function WriteAll(logs: seq<Effect>, db: Database): (r: (seq<Effect>, Option<string>))
    ensures r.0 <= logs
    ensures r.1.None? ==> r.0 == logs
    ensures r.1.Some? ==> r.0 != []
    decreases |logs|
  {
    if logs == [] then ([], None)
    else
      var last := logs[|logs| - 1];
      var before := WriteAll(logs[..|logs| - 1], db);
      if before.1.Some? then before
      else (before.0 + [last], db(last))
  }

  /**
   * The writes attempted are a prefix of `logs`, every one but the last
   * succeeded, and the message reported is the last one's; when nothing
   * threw, every write was attempted and succeeded.
   */
  lemma {:induction false} WriteAllMeaning(logs: seq<Effect>, db: Database)
    ensures var r := WriteAll(logs, db);
      && r.0 <= logs
      && (r.1.None? ==> r.0 == logs)
      && (r.1.Some? ==> r.0 != [] && r.1 == db(r.0[|r.0| - 1]))
      && (forall i :: 0 <= i < |r.0| - 1 ==> db(r.0[i]).None?)
      && (r.1.None? ==> forall i :: 0 <= i < |logs| ==> db(logs[i]).None?)
    decreases |logs|
  {
    if logs != [] {
      var init := logs[..|logs| - 1];
      WriteAllMeaning(init, db);
      var before := WriteAll(init, db);
      if before.1.None? {
        assert before.0 + [logs[|logs| - 1]] == logs;
      }
    }
  }

  /** The handler's alert loop: one database write per alert, in order, stopping at the first that throws. */
  method LogEachAlert(batchId: Json, alerts: seq<Alert>, db: Database) returns (written: seq<Effect>, failure: Option<string>)
    ensures (written, failure) == WriteAll(AlertLogs(batchId, alerts), db)
  {
    ghost var logs := AlertLogs(batchId, alerts);
    written, failure := [], None;
    var i := 0;
    while i < |alerts| && failure.None?
      invariant 0 <= i <= |alerts|
      invariant WriteAll(logs[..i], db) == (written, failure)
    {
      var entry := LogAlert(batchId, "SENSOR_ALERT", alerts[i].Text());
      WriteAllSnoc(logs, i, db);
      written := written + [entry];
      failure := db(entry);
      i := i + 1;
    }
    WriteAllRest(logs, i, db);
  }

  /** Whether the writes stopped early or not, the prefix written so far is the whole answer. */
  lemma WriteAllRest(logs: seq<Effect>, i: nat, db: Database)
    requires i <= |logs|
    requires i < |logs| ==> WriteAll(logs[..i], db).1.Some?
    ensures WriteAll(logs, db) == WriteAll(logs[..i], db)
  {
    if i < |logs| {
      WriteAllStops(logs[..i], logs[i..], db);
      assert logs[..i] + logs[i..] == logs;
    } else {
      assert logs[..i] == logs;
    }
  }

  /** One more write after a run of successful ones. */
  lemma WriteAllSnoc(logs: seq<Effect>, i: nat, db: Database)
    requires i < |logs| && WriteAll(logs[..i], db).1.None?
    ensures WriteAll(logs[..i + 1], db) == (WriteAll(logs[..i], db).0 + [logs[i]], db(logs[i]))
  {
    assert logs[..i + 1][..i] == logs[..i];
  }

  /** Once a write has thrown, later writes are never attempted. */
  lemma {:induction false} WriteAllStops(logs: seq<Effect>, more: seq<Effect>, db: Database)
    requires WriteAll(logs, db).1.Some?
    ensures WriteAll(logs + more, db) == WriteAll(logs, db)
    decreases |more|
  {
    if more != [] {
      var shorter := more[..|more| - 1];
      var all := logs + more;
      assert all != [];
      assert all[..|all| - 1] == logs + shorter;
      WriteAllStops(logs, shorter, db);
      assert WriteAll(all[..|all| - 1], db).1.Some?;
    } else {
      assert logs + more == logs;
    }
  }

  // ---------------------------------------------------------------------------
  // Batch creation
  // ---------------------------------------------------------------------------

  /** The body of a create-batch request. */
  datatype BatchBody = BatchBody(batchId: Json, maxTemperature: Json, minTemperature: Json,
                                 maxHumidity: Json, minHumidity: Json, metadataURI: Json)

  /** A batch row as inserted into the database. */
  datatype BatchRow = BatchRow(batchId: Json, bakerAddress: string, metadataUri: Json,
                               minTemp: Json, maxTemp: Json, minHumidity: Json, maxHumidity: Json,
                               isFlagged: bool, status: string)

  /** The answer to a create-batch request. */
  datatype CreateReply =
    | CreateError(status: int, error: string)
    | CreateResult(batchId: Json, tx: TxResult)

  /** The 400 check: any of the six fields is `null` or left out. */
  predicate MissingBatchField(body: BatchBody) {
    Nullish(body.batchId) || Nullish(body.maxTemperature) || Nullish(body.minTemperature)
    || Nullish(body.maxHumidity) || Nullish(body.minHumidity) || Nullish(body.metadataURI)
  }

  // ---------------------------------------------------------------------------
  // Status updates
  // ---------------------------------------------------------------------------

  /** The statuses a batch may be set to, in lifecycle order. */
  const ValidStatuses: seq<string> := ["Created", "HandedToShipper", "ArrivedWarehouse", "Delivered", "Spoiled", "Audited"]

  /** The answer to a status update. */
  datatype StatusReply = StatusError(status: int, error: string) | StatusUpdated(message: string)

  /** A batch id as parsed from the path, `None` standing for `NaN`. */
  function BatchIdText(batchId: Option<int>): string {
    match batchId
    case None => "NaN"
    case Some(n) => Decimal(n)
  }

  /**
   * The status-update endpoint: a status outside the whitelist is refused
   * with 400 before anything is written; a listed one is written and
   * confirmed, or the write's error is answered with 500.
   */
  function StatusUpdate(batchId: Option<int>, status: Json, db: Database): (r: (StatusReply, seq<Effect>))
    ensures r.0.StatusError? && r.0.status == 400 <==> !(status.Str? && status.s in ValidStatuses)
    ensures r.0.StatusError? && r.0.status == 400 ==> r.0.error == "Invalid status value" && r.1 == []
    ensures status.Str? && status.s in ValidStatuses ==> r.1 == [UpdateStatus(batchId, status.s)]
    ensures r.0.StatusUpdated? <==> status.Str? && status.s in ValidStatuses && db(UpdateStatus(batchId, status.s)).None?
    ensures r.0.StatusUpdated? ==>
      r.0.message == "Batch " + BatchIdText(batchId) + " status updated to " + status.s
  {
    if !(status.Str? && status.s in ValidStatuses) then (StatusError(400, "Invalid status value"), [])
    else
      var write := UpdateStatus(batchId, status.s);
      match db(write)
      case Some(m) => (StatusError(500, m), [write])
      case None => (StatusUpdated("Batch " + BatchIdText(batchId) + " status updated to " + status.s), [write])
  }

  /** Statuses are compared exactly: a differently cased status is refused. */
  lemma StatusIsCaseSensitive(batchId: Option<int>, db: Database)
    ensures StatusUpdate(batchId, Str("Delivered"), db).1 != []
    ensures StatusUpdate(batchId, Str("delivered"), db).0 == StatusError(400, "Invalid status value")
  {
    assert "Delivered" == ValidStatuses[3];
    assert "delivered"[0] == 'd';
    assert forall s :: s in ValidStatuses ==> s[0] != 'd';
  }

  // ---------------------------------------------------------------------------
  // Audit report
  // ---------------------------------------------------------------------------

  /** A batch record as the lifecycle registry returns it. */
  datatype ChainRecord = ChainRecord(status: int, maxTemperature: int, minTemperature: int,
                                     maxHumidity: int, minHumidity: int, isFlagged: bool)

  /** A sensor reading as the oracle returns it. */
  datatype Reading = Reading(timestamp: int, temperature: int, humidity: int)

  /** The sensor part of the report. */
  datatype SensorSummary = SensorSummary(readingCount: int, lastReading: Option<Reading>)

  /** The compliance part of the report; `None` stands for `null`. */
  datatype Compliance = Compliance(temperatureCompliance: Option<bool>, humidityCompliance: Option<bool>,
                                   isFlagged: bool, statusCompleted: bool)

  /** The report, or 404 when the registry has no record of the batch. */
  datatype AuditReply = AuditNotFound | AuditReport(sensor: SensorSummary, compliance: Compliance)

  /**
   * The sensor part: the count and the last reading are kept only when the
   * count call succeeds with a positive count, the reading only when its own
   * call succeeds as well.
   */
  function SensorSummaryOf(count: ViewResult<int>, last: ViewResult<Reading>): (s: SensorSummary)
    ensures s.readingCount == if count.ViewOk? && count.data > 0 then count.data else 0
    ensures s.lastReading.Some? <==> count.ViewOk? && count.data > 0 && last.ViewOk?
    ensures s.lastReading.Some? ==> s.lastReading.value == last.data
  {
    if count.ViewOk? && count.data > 0 then
      SensorSummary(count.data, if last.ViewOk? then Some(last.data) else None)
    else SensorSummary(0, None)
  }

  /** A value is within inclusive bounds. */
  predicate Within(lo: int, x: int, hi: int) {
    lo <= x <= hi
  }

  /**
   * The compliance analysis: the last reading against the record's limits,
   * bounds included, `null` without a reading; the batch is completed from
   * status 3 (Delivered) on.
   */
  function ComplianceOf(record: ChainRecord, last: Option<Reading>): (c: Compliance)
    ensures c.temperatureCompliance.None? <==> last.None?
    ensures c.humidityCompliance.None? <==> last.None?
    ensures last.Some? ==>
      (c.temperatureCompliance == Some(true) <==> record.minTemperature <= last.value.temperature <= record.maxTemperature)
    ensures last.Some? ==>
      (c.humidityCompliance == Some(true) <==> record.minHumidity <= last.value.humidity <= record.maxHumidity)
    ensures c.isFlagged == record.isFlagged
    ensures c.statusCompleted <==> record.status >= 3
  {
    Compliance(
      if last.None? then None
      else Some(Within(record.minTemperature, last.value.temperature, record.maxTemperature)),
      if last.None? then None
      else Some(Within(record.minHumidity, last.value.humidity, record.maxHumidity)),
      record.isFlagged,
      record.status >= 3)
  }

  /** The audit report from the answers of the registry and oracle views. */
  function AuditOf(record: ViewResult<ChainRecord>, count: ViewResult<int>, last: ViewResult<Reading>): (r: AuditReply)
    ensures r.AuditNotFound? <==> record.ViewFailed?
    ensures r.AuditReport? ==> r.sensor == SensorSummaryOf(count, last)
    ensures r.AuditReport? ==> r.compliance == ComplianceOf(record.data, r.sensor.lastReading)
  {
    if record.ViewFailed? then AuditNotFound
    else
      var sensor := SensorSummaryOf(count, last);
      AuditReport(sensor, ComplianceOf(record.data, sensor.lastReading))
  }

  /** The limits a record states, in the form the sensor-data check uses. */
  function LimitsOf(record: ChainRecord): Limits {
    Limits(record.maxTemperature, record.minTemperature, record.maxHumidity, record.minHumidity)
  }

  /**
   * The audit's compliance verdict and the sensor-data alerts agree: the last
   * reading is temperature-compliant exactly when it raises no temperature
   * alert, and humidity-compliant exactly when it raises no humidity alert.
   */
  lemma ComplianceAgreesWithAlerts(record: ChainRecord, reading: Reading)
    ensures var c := ComplianceOf(record, Some(reading));
      var bs := BrokenBounds(LimitsOf(record), Num(reading.temperature), Num(reading.humidity));
      && (c.temperatureCompliance == Some(true) <==> TempMax !in bs && TempMin !in bs)
      && (c.humidityCompliance == Some(true) <==> HumidityMax !in bs && HumidityMin !in bs)
  {
  }

  /**
   * The completed statuses are those from Delivered on in the lifecycle order.
   * This assumes that the registry numbers its statuses in the order of the
   * status list the server accepts; the registry contract is not part of this
   * model, so that numbering is not checked here.
   */
  lemma CompletedFromDelivered(status: nat)
    requires status < |ValidStatuses|
    ensures status >= 3 <==> ValidStatuses[status] in {"Delivered", "Spoiled", "Audited"}
  {
    assert ValidStatuses[0][0] == 'C' && ValidStatuses[1][0] == 'H' && ValidStatuses[2][0] == 'A';
    assert ValidStatuses[2][1] == 'r';
  }

  // ---------------------------------------------------------------------------
  // Admin contract table
  // ---------------------------------------------------------------------------

  /** The entries of an update request that are stored: those whose value is a non-empty string. */
  function Accepted(entries: seq<(string, Json)>): (ps: seq<(string, string)>)
    decreases |entries|
  {
    if entries == [] then []
    else
      var e := entries[0];
      (if e.1.Str? && e.1.s != "" then [(e.0, e.1.s)] else []) + Accepted(entries[1..])
  }

  /** Exactly the entries with a non-empty string value are accepted. */
  lemma {:induction false} AcceptedEntries(entries: seq<(string, Json)>)
    ensures forall p :: p in Accepted(entries) ==> p.1 != "" && (p.0, Str(p.1)) in entries
    ensures forall e :: e in entries && e.1.Str? && e.1.s != "" ==> (e.0, e.1.s) in Accepted(entries)
    decreases |entries|
  {
    if entries != [] {
      AcceptedEntries(entries[1..]);
      assert forall e :: e in entries ==> e == entries[0] || e in entries[1..];
    }
  }

  /** The address table after storing `ps` in order. */
  function Stored(m: map<string, string>, ps: seq<(string, string)>): map<string, string>
    decreases |ps|
  {
    if ps == [] then m else Stored(m[ps[0].0 := ps[0].1], ps[1..])
  }

  /** Names the request does not give keep their entry, or their absence. */
  lemma {:induction false} StoredKeepsOthers(m: map<string, string>, ps: seq<(string, string)>, n: string)
    requires forall p :: p in ps ==> p.0 != n
    ensures n in Stored(m, ps) <==> n in m
    ensures n in m ==> Stored(m, ps)[n] == m[n]
    decreases |ps|
  {
    if ps != [] {
      assert ps[0] in ps;
      StoredKeepsOthers(m[ps[0].0 := ps[0].1], ps[1..], n);
    }
  }

  /** A name the request gives ends with the last address given for it. */
  lemma {:induction false} StoredKeepsLast(m: map<string, string>, ps: seq<(string, string)>, k: nat)
    requires k < |ps|
    requires forall j :: k < j < |ps| ==> ps[j].0 != ps[k].0
    ensures ps[k].0 in Stored(m, ps) && Stored(m, ps)[ps[k].0] == ps[k].1
    decreases |ps|
  {
    if k == 0 {
      StoredKeepsOthers(m[ps[0].0 := ps[0].1], ps[1..], ps[0].0);
    } else {
      StoredKeepsLast(m[ps[0].0 := ps[0].1], ps[1..], k - 1);
    }
  }

  /** The contract a name would be loaded as, when its build file declares an ABI for it. */
  function Loaded(builds: map<string, Output>, name: string, address: string): Option<ContractEntry> {
    if name in builds && AbiIn(builds[name], name).Some? then
      var abi := AbiIn(builds[name], name).value;
      Some(ContractEntry(address, abi, Instance(abi, address)))
    else None
  }

  /**
   * The pair's contract can be loaded: the build file declares an ABI for it,
   * the node is connected and web3 accepts the address.
   */
  predicate CanLoad(builds: map<string, Output>, connected: bool, checkAddress: string -> Option<string>,
                    p: (string, string)) {
    connected && Loaded(builds, p.0, p.1).Some? && checkAddress(p.1).None?
  }

  /** The index of the first pair whose contract cannot be loaded. */
  function FirstUnloadable(ps: seq<(string, string)>, builds: map<string, Output>, connected: bool,
                           checkAddress: string -> Option<string>): (r: Option<nat>)
    ensures r.Some? ==> r.value < |ps| && !CanLoad(builds, connected, checkAddress, ps[r.value])
    ensures r.Some? ==> forall j :: 0 <= j < r.value ==> CanLoad(builds, connected, checkAddress, ps[j])
    ensures r.None? ==> forall j :: 0 <= j < |ps| ==> CanLoad(builds, connected, checkAddress, ps[j])
    decreases |ps|
  {
    if ps == [] then None
    else if !CanLoad(builds, connected, checkAddress, ps[0]) then Some(0)
    else match FirstUnloadable(ps[1..], builds, connected, checkAddress)
      case None => None
      case Some(k) => Some(k + 1)
  }

  /** The registry after loading the pair's contract, when it can be loaded. */
  function Register(c: map<string, ContractEntry>, p: (string, string), builds: map<string, Output>)
    : map<string, ContractEntry>
  {
    match Loaded(builds, p.0, p.1)
    case Some(e) => c[p.0 := e]
    case None => c
  }

  /** The registry after loading every pair of `ps`, in order. */
  function Registered(c: map<string, ContractEntry>, ps: seq<(string, string)>, builds: map<string, Output>)
    : map<string, ContractEntry>
    decreases |ps|
  {
    if ps == [] then c else Registered(Register(c, ps[0], builds), ps[1..], builds)
  }

  /** The address table, the registry and the answer after an admin update. */
  datatype AdminUpdate = AdminUpdate(addresses: map<string, string>, contracts: map<string, ContractEntry>,
                                     result: Result<map<string, string>, string>)

  /**
   * The admin update, entry by entry: a non-empty string address is stored,
   * then its contract is loaded; the first load that throws ends the update.
   */
  function AdminUpdateOf(m: map<string, string>, c: map<string, ContractEntry>, entries: seq<(string, Json)>,
                         builds: map<string, Output>, connected: bool,
                         checkAddress: string -> Option<string>): (r: AdminUpdate)
    ensures m.Keys <= r.addresses.Keys
    ensures r.result.Ok? ==> r.result.value == r.addresses
    decreases |entries|
  {
    if entries == [] then AdminUpdate(m, c, Ok(m))
    else
      var e := entries[0];
      if e.1.Str? && e.1.s != "" then
        var p := (e.0, e.1.s);
        if !CanLoad(builds, connected, checkAddress, p) then
          AdminUpdate(m[p.0 := p.1], c, Err(LoadFailure(builds, connected, checkAddress, p).Message()))
        else AdminUpdateOf(m[p.0 := p.1], Register(c, p, builds), entries[1..], builds, connected, checkAddress)
      else AdminUpdateOf(m, c, entries[1..], builds, connected, checkAddress)
  }

  /**
   * When every accepted entry loads, an admin update stores and registers all
   * of them in order, and the answer is the resulting table.
   */
  lemma {:induction false} AdminUpdateAllLoad(m: map<string, string>, c: map<string, ContractEntry>,
                                              entries: seq<(string, Json)>, builds: map<string, Output>, connected: bool,
                                              checkAddress: string -> Option<string>)
    requires FirstUnloadable(Accepted(entries), builds, connected, checkAddress).None?
    ensures var ps := Accepted(entries);
      AdminUpdateOf(m, c, entries, builds, connected, checkAddress)
      == AdminUpdate(Stored(m, ps), Registered(c, ps, builds), Ok(Stored(m, ps)))
    decreases |entries|
  {
    if entries != [] {
      var e := entries[0];
      var rest := entries[1..];
      var ps := Accepted(rest);
      if e.1.Str? && e.1.s != "" {
        var p := (e.0, e.1.s);
        assert Accepted(entries) == [p] + ps;
        ConsFacts(m, c, p, ps, builds, connected, checkAddress);
        AdminUpdateAllLoad(m[p.0 := p.1], Register(c, p, builds), rest, builds, connected, checkAddress);
      } else {
        assert Accepted(entries) == ps;
        AdminUpdateAllLoad(m, c, rest, builds, connected, checkAddress);
      }
    }
  }

  /**
   * When the k-th accepted entry is the first that fails to load, an admin
   * update stores entries 0..k (the failing one included), registers only the
   * entries before it, and answers with the load's error.
   */
  lemma {:induction false} AdminUpdateStopsAt(m: map<string, string>, c: map<string, ContractEntry>,
                                              entries: seq<(string, Json)>, builds: map<string, Output>,
                                              connected: bool, checkAddress: string -> Option<string>, k: nat)
    requires FirstUnloadable(Accepted(entries), builds, connected, checkAddress) == Some(k)
    ensures k < |Accepted(entries)|
    ensures var ps := Accepted(entries);
      AdminUpdateOf(m, c, entries, builds, connected, checkAddress)
      == AdminUpdate(Stored(m, ps[..k + 1]), Registered(c, ps[..k], builds),
                     Err(LoadFailure(builds, connected, checkAddress, ps[k]).Message()))
    decreases |entries|
  {
    var e := entries[0];
    var rest := entries[1..];
    if e.1.Str? && e.1.s != "" {
      var p := (e.0, e.1.s);
      if CanLoad(builds, connected, checkAddress, p) {
        LoadedHeadSkipsOne(p, Accepted(rest), builds, connected, checkAddress, k);
        AdminUpdateStopsAt(m[p.0 := p.1], Register(c, p, builds), rest, builds, connected, checkAddress, k - 1);
        StopsLater(m, c, entries, builds, connected, checkAddress, k);
      } else {
        StopsAtHead(m, c, entries, builds, connected, checkAddress, k);
      }
    } else {
      SkipsRejectedHead(m, c, entries, builds, connected, checkAddress);
      AdminUpdateStopsAt(m, c, rest, builds, connected, checkAddress, k);
    }
  }

  /** An entry the admin update does not accept changes neither the accepted list nor the outcome. */
  lemma SkipsRejectedHead(m: map<string, string>, c: map<string, ContractEntry>,
                          entries: seq<(string, Json)>, builds: map<string, Output>,
                          connected: bool, checkAddress: string -> Option<string>)
    requires entries != [] && !(entries[0].1.Str? && entries[0].1.s != "")
    ensures Accepted(entries) == Accepted(entries[1..])
    ensures AdminUpdateOf(m, c, entries, builds, connected, checkAddress)
            == AdminUpdateOf(m, c, entries[1..], builds, connected, checkAddress)
  {
    assert [] + Accepted(entries[1..]) == Accepted(entries[1..]);
  }

  /** An accepted leading entry that loads moves the first unloadable index one place later. */
  lemma LoadedHeadSkipsOne(p: (string, string), ps: seq<(string, string)>, builds: map<string, Output>,
                           connected: bool, checkAddress: string -> Option<string>, k: nat)
    requires CanLoad(builds, connected, checkAddress, p)
      && FirstUnloadable([p] + ps, builds, connected, checkAddress) == Some(k)
    ensures k >= 1 && FirstUnloadable(ps, builds, connected, checkAddress) == Some(k - 1)
  {
    assert ([p] + ps)[1..] == ps;
  }

  /** The first accepted entry fails to load: it is stored, nothing is registered. */
  lemma StopsAtHead(m: map<string, string>, c: map<string, ContractEntry>,
                    entries: seq<(string, Json)>, builds: map<string, Output>, connected: bool,
                    checkAddress: string -> Option<string>, k: nat)
    requires entries != [] && entries[0].1.Str? && entries[0].1.s != ""
    requires !CanLoad(builds, connected, checkAddress, (entries[0].0, entries[0].1.s))
    requires FirstUnloadable(Accepted(entries), builds, connected, checkAddress) == Some(k)
    ensures k == 0 < |Accepted(entries)|
    ensures var ps := Accepted(entries);
      AdminUpdateOf(m, c, entries, builds, connected, checkAddress)
      == AdminUpdate(Stored(m, ps[..1]), Registered(c, ps[..0], builds),
                     Err(LoadFailure(builds, connected, checkAddress, ps[0]).Message()))
  {
    var p := (entries[0].0, entries[0].1.s);
    var ps := Accepted(entries);
    assert ps == [p] + Accepted(entries[1..]);
    assert ps[..1] == [p] && ps[..0] == [];
    assert Stored(m, [p]) == Stored(m[p.0 := p.1], []);
  }

  /** The first accepted entry loads, and the update goes on with the rest. */
  lemma StopsLater(m: map<string, string>, c: map<string, ContractEntry>,
                   entries: seq<(string, Json)>, builds: map<string, Output>, connected: bool,
                   checkAddress: string -> Option<string>, k: nat)
    requires entries != [] && entries[0].1.Str? && entries[0].1.s != ""
    requires 1 <= k <= |Accepted(entries[1..])|
    requires var p := (entries[0].0, entries[0].1.s);
      var ps := Accepted(entries[1..]);
      && CanLoad(builds, connected, checkAddress, p)
      && k - 1 < |ps|
      && AdminUpdateOf(m[p.0 := p.1], Register(c, p, builds), entries[1..], builds, connected, checkAddress)
         == AdminUpdate(Stored(m[p.0 := p.1], ps[..k]), Registered(Register(c, p, builds), ps[..k - 1], builds),
                        Err(LoadFailure(builds, connected, checkAddress, ps[k - 1]).Message()))
    ensures k < |Accepted(entries)|
    ensures var ps := Accepted(entries);
      AdminUpdateOf(m, c, entries, builds, connected, checkAddress)
      == AdminUpdate(Stored(m, ps[..k + 1]), Registered(c, ps[..k], builds),
                     Err(LoadFailure(builds, connected, checkAddress, ps[k]).Message()))
  {
    var p := (entries[0].0, entries[0].1.s);
    var ps := Accepted(entries[1..]);
    assert Accepted(entries) == [p] + ps;
    ConsPrefix(m, c, p, ps, k - 1, builds);
  }

  /** How the first unloadable index, the stored table and the registry treat a leading pair. */
  lemma ConsFacts(m: map<string, string>, c: map<string, ContractEntry>, p: (string, string),
                  ps: seq<(string, string)>, builds: map<string, Output>, connected: bool,
                  checkAddress: string -> Option<string>)
    ensures !CanLoad(builds, connected, checkAddress, p)
      ==> FirstUnloadable([p] + ps, builds, connected, checkAddress) == Some(0)
    ensures CanLoad(builds, connected, checkAddress, p) ==>
      FirstUnloadable([p] + ps, builds, connected, checkAddress)
      == (match FirstUnloadable(ps, builds, connected, checkAddress) case None => None case Some(k) => Some(k + 1))
    ensures ([p] + ps)[..1] == [p] && ([p] + ps)[..0] == []
    ensures Stored(m, [p]) == m[p.0 := p.1] && Registered(c, [], builds) == c
    ensures Stored(m, [p] + ps) == Stored(m[p.0 := p.1], ps)
    ensures Registered(c, [p] + ps, builds) == Registered(Register(c, p, builds), ps, builds)
  {
    assert ([p] + ps)[1..] == ps;
  }

  /** The same for prefixes: storing or registering `k` more pairs after the leading one. */
  lemma ConsPrefix(m: map<string, string>, c: map<string, ContractEntry>, p: (string, string),
                   ps: seq<(string, string)>, k: nat, builds: map<string, Output>)
    requires k < |ps|
    ensures Stored(m, ([p] + ps)[..k + 2]) == Stored(m[p.0 := p.1], ps[..k + 1])
    ensures Registered(c, ([p] + ps)[..k + 1], builds) == Registered(Register(c, p, builds), ps[..k], builds)
  {
    assert ([p] + ps)[..k + 2] == [p] + ps[..k + 1];
    assert ([p] + ps)[..k + 1] == [p] + ps[..k];
    assert ([p] + ps[..k + 1])[1..] == ps[..k + 1];
    assert ([p] + ps[..k])[1..] == ps[..k];
  }

  /** The error a load of the pair throws when its contract cannot be loaded, in the loader's order of checks. */
  function LoadFailure(builds: map<string, Output>, connected: bool, checkAddress: string -> Option<string>,
                       p: (string, string)): LoadError {
    if p.0 !in builds then BuildUnreadable(p.0)
    else if AbiIn(builds[p.0], p.0).None? then AbiNotFound(p.0)
    else if !connected || checkAddress(p.1).None? then NoProvider
    else InvalidAddress(checkAddress(p.1).value)
  }

  /**
   * An address that web3 rejects fails the admin update even when the build
   * file and the node are fine: the address is stored, nothing is registered,
   * and the answer is web3's message.
   */
  lemma AdminUpdateRejectsAddress(m: map<string, string>, c: map<string, ContractEntry>, name: string,
                                  address: string, builds: map<string, Output>,
                                  checkAddress: string -> Option<string>)
    requires address != "" && name in builds && AbiIn(builds[name], name).Some?
    requires checkAddress(address).Some?
    ensures AdminUpdateOf(m, c, [(name, Str(address))], builds, true, checkAddress)
            == AdminUpdate(m[name := address], c, Err(checkAddress(address).value))
  {
    assert !CanLoad(builds, true, checkAddress, (name, address));
    assert LoadFailure(builds, true, checkAddress, (name, address)) == InvalidAddress(checkAddress(address).value);
  }

  // ---------------------------------------------------------------------------
  // The server
  // ---------------------------------------------------------------------------

  /** The server's own state: the admin address table, and the web3 library it uses. */
  class Api {
    /** The contract addresses set by the admin endpoint, by name. */
    var contractAddresses: map<string, string>
    /** The web3 library's connection and registry. */
    const web3: Session

    constructor(web3: Session)
      ensures contractAddresses == map[] && this.web3 == web3
    {
      contractAddresses := map[];
      this.web3 := web3;
    }

    /**
     * The sensor-data endpoint as a function of its inputs: `lookup` is the
     * database's answer for the batch (or the message it throws), and
     * `checkArgs` is web3's validation of a call's arguments when the call is
     * built (nothing, or the message it throws). It returns the reply and the
     * writes and transactions attempted, in order.
     */
    function SensorOutcome(body: SensorBody, lookup: Result<Option<Limits>, string>, db: Database,
                           checkArgs: MethodCall -> Option<string>, node: TxRequest -> TxReply)
      : (r: (SensorReply, seq<Effect>))
      reads web3
      ensures r.0.Clean? ==> r.1 == []
      ensures r.0.Clean? ==> && !MissingSensorData(body) && lookup.Ok? && lookup.value.Some?
                             && Alerts(lookup.value.value, body.temperature, body.humidity) == []
      ensures r.1 != [] ==> && !MissingSensorData(body) && lookup.Ok? && lookup.value.Some?
                            && Alerts(lookup.value.value, body.temperature, body.humidity) != []
      ensures r.0.Submitted? ==> r.1 != [] && r.1[|r.1| - 1].Transaction?
    {
      if MissingSensorData(body) then (SensorError(400, "Missing required sensor data"), [])
      else match lookup
        case Err(m) => (SensorError(500, m), [])
        case Ok(None) => (SensorError(404, "Unknown batch"), [])
        case Ok(Some(limits)) =>
          var alerts := Alerts(limits, body.temperature, body.humidity);
          if alerts == [] then (Clean, [])
          else
            var written := WriteAll(AlertLogs(body.batchId, alerts), db);
            if written.1.Some? then (SensorError(500, written.1.value), written.0)
            else match web3.GetContract("SensorOracle")
              case Err(m) => (SensorError(500, m), written.0)
              case Ok(oracle) =>
                if "submitSensorData" !in oracle.abi then
                  (SensorError(500, NotAFunction("oracle", "submitSensorData")), written.0)
                else
                  var request := OracleRequest(web3, oracle, body);
                  if checkArgs(request.call).Some? then (SensorError(500, checkArgs(request.call).value), written.0)
                  else
                    var tx := web3.SendTransaction(request.call, None, node);
                    (Submitted(body.batchId, body.temperature, body.humidity, tx), written.0 + [Transaction(request)])
    }

    /** The sensor-data endpoint: validation, the threshold check, the alert log loop and the one submission. */
    method SensorData(body: SensorBody, lookup: Result<Option<Limits>, string>, db: Database,
                      checkArgs: MethodCall -> Option<string>, node: TxRequest -> TxReply)
      returns (reply: SensorReply, effects: seq<Effect>)
      ensures (reply, effects) == SensorOutcome(body, lookup, db, checkArgs, node)
    {
      if MissingSensorData(body) {
        return SensorError(400, "Missing required sensor data"), [];
      }
      if lookup.Err? {
        return SensorError(500, lookup.error), [];
      }
      if lookup.value.None? {
        return SensorError(404, "Unknown batch"), [];
      }
      var limits := lookup.value.value;
      var alerts := CollectAlerts(limits, body.temperature, body.humidity);
      if |alerts| == 0 {
        return Clean, [];
      }
      var failure;
      effects, failure := LogEachAlert(body.batchId, alerts, db);
      if failure.Some? {
        return SensorError(500, failure.value), effects;
      }
      var oracle := web3.GetContract("SensorOracle");
      if oracle.Err? {
        return SensorError(500, oracle.error), effects;
      }
      if "submitSensorData" !in oracle.value.abi {
        return SensorError(500, NotAFunction("oracle", "submitSensorData")), effects;
      }
      var request := OracleRequest(web3, oracle.value, body);
      var rejected := checkArgs(request.call);
      if rejected.Some? {
        return SensorError(500, rejected.value), effects;
      }
      var tx := web3.SendTransaction(request.call, None, node);
      effects := effects + [Transaction(request)];
      reply := Submitted(body.batchId, body.temperature, body.humidity, tx);
    }

    /**
     * The create-batch endpoint: validation, one transaction, and the database
     * copy of the batch, written only when the transaction succeeded. When web3
     * rejects the call's arguments (`checkArgs`) nothing is sent.
     */
    function CreateBatch(body: BatchBody, db: Database, checkArgs: MethodCall -> Option<string>,
                         node: TxRequest -> TxReply): (r: (CreateReply, seq<Effect>))
      reads web3
      ensures |r.1| <= 2
      ensures r.1 != [] <==> r.0.CreateResult?
      ensures r.1 != [] ==> !MissingBatchField(body) && r.1[0].Transaction?
      ensures |r.1| == 2 <==> r.0.CreateResult? && r.0.tx.TxSucceeded?
      ensures |r.1| == 2 ==> r.1[1].InsertBatch? && r.1[1].row.batchId == body.batchId
    {
      if MissingBatchField(body) then (CreateError(400, "Missing required parameters"), [])
      else match web3.GetContract("CakeFactory")
        case Err(m) => (CreateError(500, m), [])
        case Ok(factory) =>
          if "createBatch" !in factory.abi then (CreateError(500, NotAFunction("cakeFactory", "createBatch")), [])
          else
            var call := FactoryCall(factory, body);
            if checkArgs(call).Some? then (CreateError(500, checkArgs(call).value), [])
            else
              var sent := Transaction(TxRequest(call, web3.Sender(None)));
              var tx := web3.SendTransaction(call, None, node);
              var baker := if web3.defaultAccount.Some? && web3.defaultAccount.value != "" then web3.defaultAccount.value
                           else "unknown";
              var row := BatchRow(body.batchId, baker, body.metadataURI, body.minTemperature, body.maxTemperature,
                                  body.minHumidity, body.maxHumidity, false, "Created");
              (CreateResult(body.batchId, tx), if tx.TxSucceeded? then [sent, InsertBatch(row)] else [sent])
    }

    /**
     * The admin endpoint: walks the request's entries in order; for each
     * non-empty string it stores the address and then loads the contract.
     * A load that throws ends the walk with 500: the failing name's address
     * is already stored, later entries are not, and nothing is rolled back.
     */
    method UpdateContracts(entries: seq<(string, Json)>, builds: map<string, Output>,
                           checkAddress: string -> Option<string>)
      returns (r: Result<map<string, string>, string>)
      modifies this, web3
      ensures web3.connected == old(web3.connected) && web3.defaultAccount == old(web3.defaultAccount)
      ensures AdminUpdate(contractAddresses, web3.contracts, r)
           == AdminUpdateOf(old(contractAddresses), old(web3.contracts), entries, builds, old(web3.connected), checkAddress)
    {
      ghost var goal := AdminUpdateOf(contractAddresses, web3.contracts, entries, builds, web3.connected, checkAddress);
      for i := 0 to |entries|
        invariant web3.connected == old(web3.connected) && web3.defaultAccount == old(web3.defaultAccount)
        invariant goal == AdminUpdateOf(contractAddresses, web3.contracts, entries[i..], builds, web3.connected, checkAddress)
      {
        assert entries[i..][0] == entries[i] && entries[i..][1..] == entries[i + 1..];
        var name := entries[i].0;
        var address := entries[i].1;
        if address.Str? && address.s != "" {
          contractAddresses := contractAddresses[name := address.s];
          var loaded := web3.LoadContract(builds, name, address.s, checkAddress);
          if loaded.Err? {
            assert loaded.error == LoadFailure(builds, web3.connected, checkAddress, (name, address.s));
            return Err(loaded.error.Message());
          }
        }
      }
      r := Ok(contractAddresses);
    }
  }

  /** The request the sensor-data endpoint submits for a body, sent from the default account. */
  function OracleRequest(web3: Session, oracle: Instance, body: SensorBody): TxRequest
    reads web3
  {
    TxRequest(MethodCall(oracle, "submitSensorData", [body.batchId, body.timestamp, body.temperature, body.humidity]),
              web3.Sender(None))
  }

  /** The createBatch call the create-batch endpoint builds: the six fields in order. */
  function FactoryCall(factory: Instance, body: BatchBody): MethodCall {
    MethodCall(factory, "createBatch",
               [body.batchId, body.maxTemperature, body.minTemperature,
                body.maxHumidity, body.minHumidity, body.metadataURI])
  }

  /**
   * Only out-of-range readings have effects: a request that is incomplete, for
   * an unknown batch, or within the batch's limits writes nothing and sends
   * nothing. Otherwise the effects are a prefix of the alert writes, in alert
   * order, and a submission happens only after every write has succeeded, as
   * the single last effect; the reply reports success exactly when the node
   * mined that submission.
   */
  lemma SensorEffects(api: Api, body: SensorBody, lookup: Result<Option<Limits>, string>, db: Database,
                      checkArgs: MethodCall -> Option<string>, node: TxRequest -> TxReply)
    ensures var r := api.SensorOutcome(body, lookup, db, checkArgs, node);
      && (MissingSensorData(body) ==> r == (SensorError(400, "Missing required sensor data"), []))
      && (r.0.Clean? <==> !MissingSensorData(body) && lookup.Ok? && lookup.value.Some?
                          && Alerts(lookup.value.value, body.temperature, body.humidity) == [])
      && (r.1 != [] ==> !MissingSensorData(body) && lookup.Ok? && lookup.value.Some?
                        && Alerts(lookup.value.value, body.temperature, body.humidity) != [])
  {
  }

  /**
   * The effects of a reading that breaks its batch's limits: the submission is
   * sent exactly when every alert write succeeded, the oracle is loaded and
   * declares the method, and web3 accepts the arguments; when web3 rejects
   * them the reply is 500 with its message after all the writes.
   */
  lemma SensorEffectsOfAlerts(api: Api, body: SensorBody, limits: Limits, db: Database,
                              checkArgs: MethodCall -> Option<string>, node: TxRequest -> TxReply)
    requires !MissingSensorData(body)
    ensures var r := api.SensorOutcome(body, Ok(Some(limits)), db, checkArgs, node);
      var logs := AlertLogs(body.batchId, Alerts(limits, body.temperature, body.humidity));
      var oracle := api.web3.GetContract("SensorOracle");
      var callable := WriteAll(logs, db).1.None? && oracle.Ok? && "submitSensorData" in oracle.value.abi && logs != [];
      && (r.0.Submitted? <==> callable && checkArgs(OracleRequest(api.web3, oracle.value, body).call).None?)
      && (callable && checkArgs(OracleRequest(api.web3, oracle.value, body).call).Some? ==>
            r == (SensorError(500, checkArgs(OracleRequest(api.web3, oracle.value, body).call).value), logs))
      && (!r.0.Submitted? ==> r.1 <= logs)
      && (r.0.Submitted? ==>
            && r.1 == logs + [Transaction(OracleRequest(api.web3, api.web3.GetContract("SensorOracle").value, body))]
            && (forall i :: 0 <= i < |logs| ==> db(logs[i]).None?)
            && r.0.batchId == body.batchId
            && (r.0.tx.TxSucceeded? <==> node(r.1[|r.1| - 1].request).Mined?))
  {
    WriteAllMeaning(AlertLogs(body.batchId, Alerts(limits, body.temperature, body.humidity)), db);
  }

  /**
   * The create-batch endpoint: an incomplete body is refused with 400 and
   * nothing is attempted; a request that gets past the contract lookup sends
   * exactly one createBatch transaction with the six fields in order unless
   * web3 rejects those arguments (500 with its message), and the database
   * copy (status Created, not flagged) is written after it exactly when the
   * node mined it. Every error reply comes with no effect.
   */
  lemma CreateBatchEffects(api: Api, body: BatchBody, db: Database, checkArgs: MethodCall -> Option<string>,
                           node: TxRequest -> TxReply)
    ensures var r := api.CreateBatch(body, db, checkArgs, node);
      var factory := api.web3.GetContract("CakeFactory");
      && (MissingBatchField(body) ==> r == (CreateError(400, "Missing required parameters"), []))
      && (r.0.CreateError? <==> r.1 == [])
      && (!MissingBatchField(body) && factory.Ok? && "createBatch" in factory.value.abi ==>
            && (r.0.CreateResult? <==> checkArgs(FactoryCall(factory.value, body)).None?)
            && (checkArgs(FactoryCall(factory.value, body)).Some? ==>
                  r == (CreateError(500, checkArgs(FactoryCall(factory.value, body)).value), [])))
      && (r.0.CreateResult? ==>
            && !MissingBatchField(body)
            && r.0.batchId == body.batchId
            && 1 <= |r.1| <= 2
            && r.1[0].Transaction?
            && r.1[0].request.call.methodName == "createBatch"
            && r.1[0].request.call.args == [body.batchId, body.maxTemperature, body.minTemperature,
                                            body.maxHumidity, body.minHumidity, body.metadataURI]
            && checkArgs(r.1[0].request.call).None?
            && (r.0.tx.TxSucceeded? <==> node(r.1[0].request).Mined?)
            && (|r.1| == 2 <==> r.0.tx.TxSucceeded?)
            && (|r.1| == 2 ==> r.1[1].InsertBatch? && r.1[1].row.batchId == body.batchId
                               && r.1[1].row.status == "Created" && !r.1[1].row.isFlagged))
  {
  }

  /** A failing database copy never changes the create-batch reply: the write's outcome is ignored. */
  lemma CreateBatchIgnoresDatabase(api: Api, body: BatchBody, db: Database, db': Database,
                                   checkArgs: MethodCall -> Option<string>, node: TxRequest -> TxReply)
    ensures api.CreateBatch(body, db, checkArgs, node) == api.CreateBatch(body, db', checkArgs, node)
  {
  }
}

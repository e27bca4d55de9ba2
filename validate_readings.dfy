/**
 * The sensor-threshold validator: a reading is classified against fixed,
 * inclusive temperature and humidity bounds, reporting at most one violation,
 * checked in a fixed priority order.
 */
module ValidateReadings {
  import opened Wrappers

  /** Temperature bounds, in degrees Celsius. */
  const MaxTemp: int := 20
  const MinTemp: int := -7

  /** Relative-humidity bounds, in percent. */
  const MaxHumidity: int := 50
  const MinHumidity: int := 20

  /** One sensor reading; numbers are integers in this model. */
  datatype CakeReading = CakeReading(batchId: int, temperature: int, humidity: int)

  /** The four violations, in the order they are checked. */
  datatype Violation = TempHigh | TempLow | HumHigh | HumLow {
    /** The code the validator reports for the violation. */
    function Code(): string {
      match this
      case TempHigh => "TEMP_HIGH"
      case TempLow => "TEMP_LOW"
      case HumHigh => "HUM_HIGH"
      case HumLow => "HUM_LOW"
    }
  }

  /** The reading lies within every bound, bounds included. */
  predicate WithinBounds(r: CakeReading) {
    MinTemp <= r.temperature <= MaxTemp && MinHumidity <= r.humidity <= MaxHumidity
  }

  /**
   * The violation a reading reports (`None` for `null`). Temperature is checked
   * before humidity and the upper bound before the lower one, so the result is
   * the first bound broken in that order.
   */
  function Violates(r: CakeReading): (v: Option<Violation>)
    ensures v.None? <==> WithinBounds(r)
    ensures v == Some(TempHigh) <==> r.temperature > MaxTemp
    ensures v == Some(TempLow) <==> r.temperature < MinTemp
    ensures v == Some(HumHigh) <==> MinTemp <= r.temperature <= MaxTemp && r.humidity > MaxHumidity
    ensures v == Some(HumLow) <==> MinTemp <= r.temperature <= MaxTemp && r.humidity < MinHumidity
  {
    if r.temperature > MaxTemp then Some(TempHigh)
    else if r.temperature < MinTemp then Some(TempLow)
    else if r.humidity > MaxHumidity then Some(HumHigh)
    else if r.humidity < MinHumidity then Some(HumLow)
    else None
  }

  /** The reported code, `None` standing for `null`. */
  function ViolationCode(r: CakeReading): (c: Option<string>)
    ensures c.None? <==> WithinBounds(r)
    ensures c.Some? ==> c.value in {"TEMP_HIGH", "TEMP_LOW", "HUM_HIGH", "HUM_LOW"}
  {
    match Violates(r)
    case None => None
    case Some(v) => Some(v.Code())
  }

  /** Every bound is inclusive: the four corner readings are all accepted. */
  lemma BoundsAreInclusive(batchId: int)
    ensures Violates(CakeReading(batchId, MaxTemp, MaxHumidity)).None?
    ensures Violates(CakeReading(batchId, MaxTemp, MinHumidity)).None?
    ensures Violates(CakeReading(batchId, MinTemp, MaxHumidity)).None?
    ensures Violates(CakeReading(batchId, MinTemp, MinHumidity)).None?
    ensures Violates(CakeReading(batchId, MaxTemp + 1, MaxHumidity)) == Some(TempHigh)
    ensures Violates(CakeReading(batchId, MinTemp - 1, MinHumidity)) == Some(TempLow)
    ensures Violates(CakeReading(batchId, MaxTemp, MaxHumidity + 1)) == Some(HumHigh)
    ensures Violates(CakeReading(batchId, MinTemp, MinHumidity - 1)) == Some(HumLow)
  {
  }

  /**
   * A temperature violation hides any humidity violation: a reading that is
   * both out of its temperature and its humidity range reports the temperature.
   */
  lemma TemperatureTakesPriority(r: CakeReading)
    requires !(MinTemp <= r.temperature <= MaxTemp)
    ensures Violates(r) == if r.temperature > MaxTemp then Some(TempHigh) else Some(TempLow)
  {
  }

  /** The verdict depends on temperature and humidity only, never on the batch. */
  lemma OnlyClimateMatters(r: CakeReading, s: CakeReading)
    requires r.temperature == s.temperature && r.humidity == s.humidity
    ensures Violates(r) == Violates(s)
  {
  }
}

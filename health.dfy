/**
 * The vehicle health estimate of the "Predict Health" screen: averages over the latest
 * telemetry rows, three sub-scores made of fixed deductions from 100, a rounded overall score
 * with its status band and colour, and an ordered list of recommendations.
 * Averages are exact reals rather than IEEE doubles.
 */
module Health {
  import opened Opt

  /** One telemetry row; every numeric field may be missing. */
  datatype TelemetryRow = TelemetryRow(
    rpm: Option<real>,
    coolantTemp: Option<real>,
    battery: Option<real>,
    mapKpa: Option<real>,
    engineLoadPct: Option<real>,
    fuelPressureKpa: Option<real>,
    stftB1Pct: Option<real>,
    faultCodes: Option<seq<string>>)

  datatype HealthStatus = Excellent | Good | Fair | Poor | Critical {
    function Name(): string {
      match this
      case Excellent => "Excellent"
      case Good => "Good"
      case Fair => "Fair"
      case Poor => "Poor"
      case Critical => "Critical"
    }

    /** Position of the band, Critical lowest. */
    function Rank(): nat {
      match this
      case Critical => 0
      case Poor => 1
      case Fair => 2
      case Good => 3
      case Excellent => 4
    }

    /** The colour the screen paints a score of this band with. */
    function Color(): string {
      match this
      case Excellent => "#27ae60"
      case Good => "#3498db"
      case Fair => "#f39c12"
      case Poor => "#e67e22"
      case Critical => "#e74c3c"
    }
  }

  /** `score` reaches the lower threshold of `band`. */
  predicate Reaches(score: int, band: HealthStatus) {
    match band
    case Excellent => score >= 85
    case Good => score >= 70
    case Fair => score >= 55
    case Poor => score >= 40
    case Critical => true
  }

  /** `getHealthStatus`: the highest band whose threshold the score reaches. */
  function HealthStatusOf(score: int): (s: HealthStatus)
    ensures Reaches(score, s)
    ensures forall b: HealthStatus :: Reaches(score, b) ==> b.Rank() <= s.Rank()
  {
    if score >= 85 then Excellent
    else if score >= 70 then Good
    else if score >= 55 then Fair
    else if score >= 40 then Poor
    else Critical
  }

  /** `getHealthColor`: a threshold chain of its own, which agrees with the status band. */
  function HealthColorOf(score: int): (c: string)
    ensures c == HealthStatusOf(score).Color()
  {
    if score >= 85 then "#27ae60"
    else if score >= 70 then "#3498db"
    else if score >= 55 then "#f39c12"
    else if score >= 40 then "#e67e22"
    else "#e74c3c"
  }

  /** A higher score never gets a lower band. */
  lemma StatusMonotone(a: int, b: int)
    requires a <= b
    ensures HealthStatusOf(a).Rank() <= HealthStatusOf(b).Rank()
  {
    assert Reaches(b, HealthStatusOf(a));
  }

  /** `field || 0`: a missing reading counts as zero. */
  function Reading(v: Option<real>): (x: real)
    ensures v.None? ==> x == 0.0
    ensures v.Some? ==> x == v.value
  {
    v.GetOr(0.0)
  }

  function Abs(x: real): (y: real)
    ensures y >= 0.0 && (y == x || y == -x)
  {
    if x < 0.0 then -x else x
  }

  /** `rows.reduce((sum, d) => sum + f(d), 0)`, accumulated from the first row on. */
  function Sum(rows: seq<TelemetryRow>, f: TelemetryRow -> real): real {
    if rows == [] then 0.0 else Sum(rows[..|rows| - 1], f) + f(rows[|rows| - 1])
  }

  lemma {:induction false} SumNonNegative(rows: seq<TelemetryRow>, f: TelemetryRow -> real)
    requires forall r :: r in rows ==> f(r) >= 0.0
    ensures Sum(rows, f) >= 0.0
  {
    if rows != [] {
      SumNonNegative(rows[..|rows| - 1], f);
      assert rows[|rows| - 1] in rows;
    }
  }

  /** The five averages the analysis reads (the screen also averages rpm and MAP, and never reads them). */
  datatype Averages = Averages(coolant: real, battery: real, engineLoad: real, fuelPressure: real, stft: real)

  function Mean(rows: seq<TelemetryRow>, f: TelemetryRow -> real): real
    requires |rows| > 0
  {
    Sum(rows, f) / |rows| as real
  }

  /** The averages of the rows; the fuel-trim average is of absolute values, so it is never negative. */
  function AveragesOf(rows: seq<TelemetryRow>): (avg: Averages)
    requires |rows| > 0
    ensures avg.stft >= 0.0
  {
    var absStft := (d: TelemetryRow) => Abs(Reading(d.stftB1Pct));
    SumNonNegative(rows, absStft);
    Averages(
      Mean(rows, (d: TelemetryRow) => Reading(d.coolantTemp)),
      Mean(rows, (d: TelemetryRow) => Reading(d.battery)),
      Mean(rows, (d: TelemetryRow) => Reading(d.engineLoadPct)),
      Mean(rows, (d: TelemetryRow) => Reading(d.fuelPressureKpa)),
      Mean(rows, absStft))
  }

  /** A row reports a fault when it has a non-empty fault-code list. */
  predicate HasFaultCodes(d: TelemetryRow) {
    d.faultCodes.Some? && |d.faultCodes.value| > 0
  }

  /** `rows.some(hasFaultCodes)`. */
  function AnyFaultCodes(rows: seq<TelemetryRow>): (b: bool)
    ensures b <==> exists i :: 0 <= i < |rows| && HasFaultCodes(rows[i])
  {
    if rows == [] then false
    else HasFaultCodes(rows[0]) || (assert forall i :: 0 < i < |rows| ==> rows[i] == rows[1..][i - 1]; AnyFaultCodes(rows[1..]))
  }

  function Penalty(applies: bool, points: int): int {
    if applies then points else 0
  }

  /** Engine score: 15 off for coolant outside [80, 95], 10 for battery outside [11, 15], 10 for load above 90. */
  function EngineScore(avg: Averages): (s: int)
    ensures 65 <= s <= 100
  {
    100
    - Penalty(avg.coolant > 95.0 || avg.coolant < 80.0, 15)
    - Penalty(avg.battery < 11.0 || avg.battery > 15.0, 10)
    - Penalty(avg.engineLoad > 90.0, 10)
  }

  /** Fuel-system score: 20 off for pressure outside [200, 400] kPa, 15 for a fuel-trim average above 10. */
  function FuelScore(avg: Averages): (s: int)
    ensures 65 <= s <= 100
  {
    100
    - Penalty(avg.fuelPressure < 200.0 || avg.fuelPressure > 400.0, 20)
    - Penalty(Abs(avg.stft) > 10.0, 15)
  }

  /** Emission score: 25 off for any fault code, 10 for load above 80. */
  function EmissionScore(avg: Averages, hasFault: bool): (s: int)
    ensures 65 <= s <= 100
    ensures hasFault ==> s <= 75
  {
    100
    - Penalty(hasFault, 25)
    - Penalty(avg.engineLoad > 80.0, 10)
  }

  /** `Math.round`: the integer nearest to `x`, halves rounded up. */
  function RoundHalfUp(x: real): (n: int)
    ensures n as real - 0.5 <= x < n as real + 0.5
  {
    (x + 0.5).Floor
  }

  lemma RoundOfInteger(n: int)
    ensures RoundHalfUp(n as real) == n
  {
  }

  /** The overall score: the rounded mean of the three sub-scores. */
  function OverallScore(engine: int, fuel: int, emission: int): (s: int)
    requires 65 <= engine <= 100 && 65 <= fuel <= 100 && 65 <= emission <= 100
    ensures 65 <= s <= 100
    ensures 3 * s - 1 <= engine + fuel + emission <= 3 * s + 1
  {
    RoundHalfUp((engine + fuel + emission) as real / 3.0)
  }

  datatype Recommendation =
    | CoolantHigh
    | BatteryLow
    | HighLoad
    | LowFuelPressure
    | FuelTrim
    | TroubleCodes
    | BelowOptimal
  {
    /** Position in the list the screen builds. */
    function Order(): nat {
      match this
      case CoolantHigh => 0
      case BatteryLow => 1
      case HighLoad => 2
      case LowFuelPressure => 3
      case FuelTrim => 4
      case TroubleCodes => 5
      case BelowOptimal => 6
    }

    function Text(): string {
      match this
      case CoolantHigh => "Engine coolant temperature is high. Check cooling system."
      case BatteryLow => "Battery voltage is low. Consider battery inspection."
      case HighLoad => "High engine load detected. Avoid aggressive driving."
      case LowFuelPressure => "Low fuel pressure detected. Inspect fuel system."
      case FuelTrim => "Fuel trim adjustment needed. Check for air leaks or fuel delivery issues."
      case TroubleCodes => "Diagnostic trouble codes detected. Professional inspection recommended."
      case BelowOptimal => "Overall vehicle health is below optimal. Schedule maintenance soon."
    }
  }

  /** The condition under which each recommendation is given. */
  predicate Applies(rec: Recommendation, avg: Averages, hasFault: bool, overall: int) {
    match rec
    case CoolantHigh => avg.coolant > 95.0
    case BatteryLow => avg.battery < 12.0
    case HighLoad => avg.engineLoad > 85.0
    case LowFuelPressure => avg.fuelPressure < 200.0
    case FuelTrim => Abs(avg.stft) > 8.0
    case TroubleCodes => hasFault
    case BelowOptimal => overall < 70
  }

  predicate StrictlyOrdered(recs: seq<Recommendation>) {
    forall i, j :: 0 <= i < j < |recs| ==> recs[i].Order() < recs[j].Order()
  }

  /** How many recommendations the screen considers. */
  const CandidateCount: nat := 7

  /** The `i`-th recommendation the screen considers: the one whose `Order()` is `i`. */
  function Candidate(i: nat): (rec: Recommendation)
    requires i < CandidateCount
    ensures rec.Order() == i
  {
    if i == 0 then CoolantHigh
    else if i == 1 then BatteryLow
    else if i == 2 then HighLoad
    else if i == 3 then LowFuelPressure
    else if i == 4 then FuelTrim
    else if i == 5 then TroubleCodes
    else BelowOptimal
  }

  /** The first `k` candidates whose condition holds, kept in candidate order. */
  function SelectUpTo(k: nat, avg: Averages, hasFault: bool, overall: int): seq<Recommendation>
    requires k <= CandidateCount
  {
    if k == 0 then []
    else
      var rec := Candidate(k - 1);
      SelectUpTo(k - 1, avg, hasFault, overall) + (if Applies(rec, avg, hasFault, overall) then [rec] else [])
  }

  /**
   * Considering the first `k` candidates keeps exactly those among them that apply, in candidate
   * order.
   */
  lemma {:induction false} SelectUpToSpec(k: nat, avg: Averages, hasFault: bool, overall: int)
    requires k <= CandidateCount
    ensures forall rec :: rec in SelectUpTo(k, avg, hasFault, overall) <==> rec.Order() < k && Applies(rec, avg, hasFault, overall)
    ensures StrictlyOrdered(SelectUpTo(k, avg, hasFault, overall))
  {
    if k > 0 {
      var prev, last := SelectUpTo(k - 1, avg, hasFault, overall), Candidate(k - 1);
      SelectUpToSpec(k - 1, avg, hasFault, overall);
      assert last.Order() == k - 1;
      assert forall rec: Recommendation :: rec.Order() == k - 1 ==> rec == last;
      forall i, j | 0 <= i < j < |SelectUpTo(k, avg, hasFault, overall)|
        ensures SelectUpTo(k, avg, hasFault, overall)[i].Order() < SelectUpTo(k, avg, hasFault, overall)[j].Order()
      {
        if j == |prev| {
          assert prev[i] in prev;
        }
      }
    }
  }

  /** The recommendations: exactly those whose condition holds, in the fixed order. */
  function Recommendations(avg: Averages, hasFault: bool, overall: int): (recs: seq<Recommendation>)
    ensures forall rec :: rec in recs <==> Applies(rec, avg, hasFault, overall)
    ensures StrictlyOrdered(recs)
  {
    SelectUpToSpec(CandidateCount, avg, hasFault, overall);
    SelectUpTo(CandidateCount, avg, hasFault, overall)
  }

  /** A strictly ordered list of recommendations has at most seven entries. */
  lemma {:induction false} AtMostSeven(recs: seq<Recommendation>)
    requires StrictlyOrdered(recs)
    ensures |recs| <= 7
  {
    if recs != [] {
      OrderGrows(recs, |recs| - 1);
    }
  }

  lemma {:induction false} OrderGrows(recs: seq<Recommendation>, k: nat)
    requires StrictlyOrdered(recs) && k < |recs|
    ensures recs[k].Order() >= k
  {
    if k > 0 {
      OrderGrows(recs, k - 1);
    }
  }

  /** The record the screen shows. */
  datatype VehicleHealth = VehicleHealth(
    engineHealth: int,
    fuelSystemHealth: int,
    emissionHealth: int,
    overallHealth: int,
    status: HealthStatus,
    recommendations: seq<Recommendation>,
    lastUpdated: string)

  /** What `analyzeData` computes from non-empty rows; `now` is the formatted clock reading. */
  function Assessment(rows: seq<TelemetryRow>, now: string): (h: VehicleHealth)
    requires |rows| > 0
  {
    var avg := AveragesOf(rows);
    var hasFault := AnyFaultCodes(rows);
    var engine, fuel, emission := EngineScore(avg), FuelScore(avg), EmissionScore(avg, hasFault);
    var overall := OverallScore(engine, fuel, emission);
    VehicleHealth(engine, fuel, emission, overall, HealthStatusOf(overall),
                  Recommendations(avg, hasFault, overall), now)
  }

  /** Every assessment lies in the narrow range the fixed deductions allow. */
  lemma AssessmentBounds(rows: seq<TelemetryRow>, now: string)
    requires |rows| > 0
    ensures var h := Assessment(rows, now);
      65 <= h.engineHealth <= 100 && 65 <= h.fuelSystemHealth <= 100 && 65 <= h.emissionHealth <= 100 &&
      65 <= h.overallHealth <= 100 &&
      h.status in {Excellent, Good, Fair} &&
      |h.recommendations| <= 7 &&
      (BelowOptimal in h.recommendations <==> h.overallHealth < 70) &&
      (AnyFaultCodes(rows) ==> h.emissionHealth <= 75 && TroubleCodes in h.recommendations)
  {
    var h := Assessment(rows, now);
    AtMostSeven(h.recommendations);
    assert !Reaches(h.overallHealth, Poor) || Reaches(h.overallHealth, Fair);
  }

  /**
   * `analyzeData`: the scores start at 100 and lose each deduction in turn, are clamped at 0,
   * and the recommendations are pushed one condition at a time.
   */
  method AnalyzeData(rows: seq<TelemetryRow>, now: string) returns (h: VehicleHealth)
    requires |rows| > 0
    ensures h == Assessment(rows, now)
  {
    var avg := AveragesOf(rows);

    var engineScore := 100;
    if avg.coolant > 95.0 || avg.coolant < 80.0 { engineScore := engineScore - 15; }
    if avg.battery < 11.0 || avg.battery > 15.0 { engineScore := engineScore - 10; }
    if avg.engineLoad > 90.0 { engineScore := engineScore - 10; }
    engineScore := Max(0, engineScore);
    assert engineScore == EngineScore(avg);

    var fuelScore := 100;
    if avg.fuelPressure < 200.0 || avg.fuelPressure > 400.0 { fuelScore := fuelScore - 20; }
    if Abs(avg.stft) > 10.0 { fuelScore := fuelScore - 15; }
    fuelScore := Max(0, fuelScore);
    assert fuelScore == FuelScore(avg);

    var hasFaultCodes := AnyFaultCodes(rows);
    var emissionScore := 100;
    if hasFaultCodes { emissionScore := emissionScore - 25; }
    if avg.engineLoad > 80.0 { emissionScore := emissionScore - 10; }
    emissionScore := Max(0, emissionScore);
    assert emissionScore == EmissionScore(avg, hasFaultCodes);

    var overallHealth := RoundHalfUp((engineScore + fuelScore + emissionScore) as real / 3.0);
    assert overallHealth == OverallScore(engineScore, fuelScore, emissionScore);

    var recommendations := CollectRecommendations(avg, hasFaultCodes, overallHealth);

    RoundOfInteger(engineScore);
    RoundOfInteger(fuelScore);
    RoundOfInteger(emissionScore);
    h := VehicleHealth(
      RoundHalfUp(engineScore as real),
      RoundHalfUp(fuelScore as real),
      RoundHalfUp(emissionScore as real),
      overallHealth,
      HealthStatusOf(overallHealth),
      recommendations,
      now);
  }

  /** The `recommendations.push` sequence of `analyzeData`, one condition at a time. */
  method CollectRecommendations(avg: Averages, hasFault: bool, overall: int) returns (recommendations: seq<Recommendation>)
    ensures recommendations == Recommendations(avg, hasFault, overall)
  {
    // After the k-th condition the list holds the first k candidates that apply.
    recommendations := [];
    if avg.coolant > 95.0 { recommendations := recommendations + [CoolantHigh]; }
    assert recommendations == SelectUpTo(1, avg, hasFault, overall) by {
      assert SelectUpTo(1, avg, hasFault, overall) == SelectUpTo(0, avg, hasFault, overall) + (if avg.coolant > 95.0 then [CoolantHigh] else []);
    }
    if avg.battery < 12.0 { recommendations := recommendations + [BatteryLow]; }
    assert recommendations == SelectUpTo(2, avg, hasFault, overall) by {
      assert SelectUpTo(2, avg, hasFault, overall) == SelectUpTo(1, avg, hasFault, overall) + (if avg.battery < 12.0 then [BatteryLow] else []);
    }
    if avg.engineLoad > 85.0 { recommendations := recommendations + [HighLoad]; }
    assert recommendations == SelectUpTo(3, avg, hasFault, overall) by {
      assert SelectUpTo(3, avg, hasFault, overall) == SelectUpTo(2, avg, hasFault, overall) + (if avg.engineLoad > 85.0 then [HighLoad] else []);
    }
    if avg.fuelPressure < 200.0 { recommendations := recommendations + [LowFuelPressure]; }
    assert recommendations == SelectUpTo(4, avg, hasFault, overall) by {
      assert SelectUpTo(4, avg, hasFault, overall) == SelectUpTo(3, avg, hasFault, overall) + (if avg.fuelPressure < 200.0 then [LowFuelPressure] else []);
    }
    if Abs(avg.stft) > 8.0 { recommendations := recommendations + [FuelTrim]; }
    assert recommendations == SelectUpTo(5, avg, hasFault, overall) by {
      assert SelectUpTo(5, avg, hasFault, overall) == SelectUpTo(4, avg, hasFault, overall) + (if Abs(avg.stft) > 8.0 then [FuelTrim] else []);
    }
    if hasFault { recommendations := recommendations + [TroubleCodes]; }
    assert recommendations == SelectUpTo(6, avg, hasFault, overall) by {
      assert SelectUpTo(6, avg, hasFault, overall) == SelectUpTo(5, avg, hasFault, overall) + (if hasFault then [TroubleCodes] else []);
    }
    if overall < 70 { recommendations := recommendations + [BelowOptimal]; }
    assert recommendations == SelectUpTo(7, avg, hasFault, overall) by {
      assert SelectUpTo(7, avg, hasFault, overall) == SelectUpTo(6, avg, hasFault, overall) + (if overall < 70 then [BelowOptimal] else []);
    }
  }

  function Max(a: int, b: int): int {
    if a >= b then a else b
  }

  /** The alerts the screen can raise while fetching and analysing. */
  datatype Alert = NoVehicle | FetchError | NoData

  /** Reply to the telemetry query (the latest ten rows of the vehicle). */
  datatype TelemetryReply = TelemetryFailed | TelemetryRows(rows: Option<seq<TelemetryRow>>)

  /**
   * `fetchLatestTelemetry`: null with an alert when no vehicle id is selected or the query
   * fails; otherwise the rows, a null reply read as empty.
   */
  function FetchLatestTelemetry(vehicleId: Option<string>, reply: TelemetryReply): (r: (Option<seq<TelemetryRow>>, seq<Alert>))
    ensures vehicleId.None? || vehicleId.value == [] ==> r == (None, [NoVehicle])
    ensures vehicleId.Some? && vehicleId.value != [] && reply.TelemetryFailed? ==> r == (None, [FetchError])
    ensures r.0.Some? <==> vehicleId.Some? && vehicleId.value != [] && reply.TelemetryRows?
    ensures r.0.Some? ==> r.0.value == reply.rows.GetOr([]) && r.1 == []
  {
    if vehicleId.None? || vehicleId.value == [] then (None, [NoVehicle])
    else match reply
      case TelemetryFailed => (None, [FetchError])
      case TelemetryRows(rows) => (Some(rows.GetOr([])), [])
  }

  class HealthScreen {
    var loading: bool
    var analyzing: bool
    var healthData: Option<VehicleHealth>

    constructor ()
      ensures !loading && !analyzing && healthData == None
    {
      loading, analyzing, healthData := false, false, None;
    }

    /**
     * `analyzeVehicleHealth`: both flags are raised for the duration and lowered on every path;
     * the analysis runs only on a non-empty fetch and replaces the shown result, otherwise the
     * "No Data" alert follows whatever alert the fetch raised and the shown result is kept.
     */
    method AnalyzeVehicleHealth(vehicleId: Option<string>, reply: TelemetryReply, now: string)
      returns (alerts: seq<Alert>)
      modifies this
      ensures !loading && !analyzing
      ensures var (data, fetchAlerts) := FetchLatestTelemetry(vehicleId, reply);
        if data.Some? && |data.value| > 0
        then healthData == Some(Assessment(data.value, now)) && alerts == fetchAlerts
        else healthData == old(healthData) && alerts == fetchAlerts + [NoData]
    {
      analyzing := true;
      loading := true;
      var (data, fetchAlerts) := FetchLatestTelemetry(vehicleId, reply);
      if data.None? || |data.value| == 0 {
        alerts := fetchAlerts + [NoData];
        analyzing := false;
        loading := false;
        return;
      }
      var analysis := AnalyzeData(data.value, now);
      healthData := Some(analysis);
      alerts := fetchAlerts;
      analyzing := false;
      loading := false;
    }
  }
}

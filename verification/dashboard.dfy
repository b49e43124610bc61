/**
 * The analytics of the lounge dashboard (dashboard/app.py), lifted out of
 * the page script into functions: the flight-schedule offset, the crowd
 * summary and confidence interval, multi-role staffing, surge detection, the
 * guest-experience score, the catering table, the sustainability score and
 * the cost comparison. Rendering is not modelled.
 */
module Dashboard {
  import opened Wrappers
  import opened Numeric
  import opened Preprocessing
  import opened Predict
  import opened Optimizer

  // ---------------------------------------------------------------------------
  // Flight-schedule adjustment
  // ---------------------------------------------------------------------------

  /** The three schedule sliders: arrivals per hour, seats per aircraft, percentage using the lounge. */
  datatype FlightSchedule = FlightSchedule(flightsPerHour: int, avgAircraftCapacity: int, loungeAccessRate: int)

  /** The ranges the sliders allow. */
  predicate InSliderRange(s: FlightSchedule)
  {
    1 <= s.flightsPerHour <= 15 && 100 <= s.avgAircraftCapacity <= 400 && 5 <= s.loungeAccessRate <= 40
  }

  /**
   * The extra lounge guests per hour the schedule brings: arriving passengers
   * times the access rate, spread evenly over the six forecast hours.
   */
  function FlightAdjustment(s: FlightSchedule): (a: real)
    ensures 600.0 * a == (s.flightsPerHour * s.avgAircraftCapacity * s.loungeAccessRate) as real
    ensures InSliderRange(s) ==> 5.0 / 6.0 <= a <= 400.0
  {
    var flightPassengers := s.flightsPerHour * s.avgAircraftCapacity;
    var expectedLoungePassengers := flightPassengers as real * (s.loungeAccessRate as real / 100.0);
    var a := expectedLoungePassengers / 6.0;
    assert InSliderRange(s) ==> 500 <= s.flightsPerHour * s.avgAircraftCapacity * s.loungeAccessRate <= 240000 by {
      if InSliderRange(s) {
        var f, c, r := s.flightsPerHour, s.avgAircraftCapacity, s.loungeAccessRate;
        assert 100 <= f * c <= 6000;
        assert f * c * r <= 6000 * r;
      }
    }
    a
  }

  /**
   * The adjusted forecast: every hour receives the same offset and is then
   * truncated to a whole number of guests. Hours keep their order.
   */
  function AdjustPredictions(base: seq<real>, s: FlightSchedule): (adjusted: seq<int>)
    ensures |adjusted| == |base|
    ensures forall i :: 0 <= i < |base| && 0.0 <= base[i] + FlightAdjustment(s) ==>
      adjusted[i] as real <= base[i] + FlightAdjustment(s) < adjusted[i] as real + 1.0
    ensures forall i :: 0 <= i < |base| && base[i] + FlightAdjustment(s) < 0.0 ==>
      adjusted[i] as real - 1.0 < base[i] + FlightAdjustment(s) <= adjusted[i] as real
    ensures forall i, j :: 0 <= i < |base| && 0 <= j < |base| && base[i] <= base[j] ==> adjusted[i] <= adjusted[j]
  {
    var offset := FlightAdjustment(s);
    var adjusted := seq(|base|, i requires 0 <= i < |base| => Trunc(base[i] + offset));
    assert forall i, j :: 0 <= i < |base| && 0 <= j < |base| && base[i] <= base[j] ==> adjusted[i] <= adjusted[j] by {
      forall i, j | 0 <= i < |base| && 0 <= j < |base| && base[i] <= base[j]
        ensures adjusted[i] <= adjusted[j]
      {
        TruncMonotone(base[i] + offset, base[j] + offset);
      }
    }
    adjusted
  }

  /**
   * Doubling the lounge access rate doubles the offset, and moves each
   * adjusted hour by that offset to within the truncation error of one guest.
   */
  lemma DoubledAccessRate(base: seq<real>, s: FlightSchedule, i: int)
    requires 0 <= i < |base| && 0.0 <= base[i] && 0.0 <= FlightAdjustment(s)
    ensures FlightAdjustment(s.(loungeAccessRate := 2 * s.loungeAccessRate)) == 2.0 * FlightAdjustment(s)
    ensures FlightAdjustment(s) - 1.0
      < (AdjustPredictions(base, s.(loungeAccessRate := 2 * s.loungeAccessRate))[i] - AdjustPredictions(base, s)[i]) as real
      < FlightAdjustment(s) + 1.0
  {
    var d := s.(loungeAccessRate := 2 * s.loungeAccessRate);
    assert s.flightsPerHour * s.avgAircraftCapacity * d.loungeAccessRate
        == 2 * (s.flightsPerHour * s.avgAircraftCapacity * s.loungeAccessRate);
  }

  // ---------------------------------------------------------------------------
  // Peak, current crowd, confidence interval and utilization
  // ---------------------------------------------------------------------------

  /** Python's `max` over a non-empty list of whole numbers. */
  function Max(s: seq<int>): (m: int)
    requires |s| > 0
    ensures forall i :: 0 <= i < |s| ==> s[i] <= m
    ensures exists i :: 0 <= i < |s| && s[i] == m
  {
    if |s| == 1 then s[0]
    else
      var rest := Max(s[1..]);
      assert forall i :: 1 <= i < |s| ==> s[i] == s[1..][i - 1];
      if s[0] >= rest then s[0] else rest
  }

  /** The capacity the utilization percentage is measured against. */
  const MaxCapacity := 200

  /** The dashboard's headline figures for one adjusted forecast. */
  datatype CrowdSummary = CrowdSummary(current: int, peak: int, lower: int, upper: int, utilization: real)

  /**
   * Current crowd (the first forecast hour), peak crowd, the confidence
   * interval of half-width `margin` around the peak, and the peak as a
   * percentage of capacity. `margin` is the truncated standard deviation of
   * recent history, a whole number of guests that is never negative.
   */
  function Summarize(adjusted: seq<int>, margin: nat): (c: CrowdSummary)
    requires |adjusted| > 0
    ensures c.current == adjusted[0]
    ensures forall i :: 0 <= i < |adjusted| ==> adjusted[i] <= c.peak
    ensures c.peak in adjusted
    ensures c.lower <= c.peak <= c.upper
    ensures c.peak - c.lower == c.upper - c.peak == margin
    ensures c.utilization * MaxCapacity as real == 100.0 * c.peak as real
    ensures c.utilization <= 100.0 <==> c.peak <= MaxCapacity
  {
    var peak := Max(adjusted);
    CrowdSummary(adjusted[0], peak, peak - margin, peak + margin, (peak as real / MaxCapacity as real) * 100.0)
  }

  // ---------------------------------------------------------------------------
  // Multi-role staffing
  // ---------------------------------------------------------------------------

  /** Staff per role for one crowd level. */
  datatype RoleStaffing = RoleStaffing(service: int, kitchen: int, cleaning: int, total: int)

  /**
   * `multi_role_staffing(crowd)`: one service member per 25 guests, one
   * kitchen member per 40 and one cleaner per 60, each truncated, with no
   * minimum; `total` is their sum.
   */
  function MultiRoleStaffing(crowd: int): (r: RoleStaffing)
    ensures r.total == r.service + r.kitchen + r.cleaning
    ensures crowd >= 0 ==> r.service == crowd / 25 && r.kitchen == crowd / 40 && r.cleaning == crowd / 60
    ensures crowd < 0 ==> r.service == -((-crowd) / 25) && r.kitchen == -((-crowd) / 40) && r.cleaning == -((-crowd) / 60)
  {
    var c := crowd as real;
    var service := Trunc(c / 25.0);
    var kitchen := Trunc(c / 40.0);
    var cleaning := Trunc(c / 60.0);
    TruncScaled(crowd, 1, 25);
    TruncScaled(crowd, 1, 40);
    TruncScaled(crowd, 1, 60);
    RoleStaffing(service, kitchen, cleaning, service + kitchen + cleaning)
  }

  /** A larger crowd never gets fewer staff in any role. */
  lemma MultiRoleStaffingMonotone(a: int, b: int)
    requires a <= b
    ensures MultiRoleStaffing(a).service <= MultiRoleStaffing(b).service
    ensures MultiRoleStaffing(a).kitchen <= MultiRoleStaffing(b).kitchen
    ensures MultiRoleStaffing(a).cleaning <= MultiRoleStaffing(b).cleaning
    ensures MultiRoleStaffing(a).total <= MultiRoleStaffing(b).total
  {
    TruncMonotone(a as real / 25.0, b as real / 25.0);
    TruncMonotone(a as real / 40.0, b as real / 40.0);
    TruncMonotone(a as real / 60.0, b as real / 60.0);
  }

  /** The worked examples: no guests need no staff; 125 guests need 5 + 3 + 2 = 10. */
  lemma MultiRoleStaffingExamples()
    ensures MultiRoleStaffing(0) == RoleStaffing(0, 0, 0, 0)
    ensures MultiRoleStaffing(125) == RoleStaffing(5, 3, 2, 10)
  {
  }

  // ---------------------------------------------------------------------------
  // Surge detection
  // ---------------------------------------------------------------------------

  /** The three surge alerts. */
  datatype Surge = Stable | Moderate | Severe

  /** The growth from hour `i` to hour `i + 1`. */
  function Growth(s: seq<int>, i: int): int
    requires 0 <= i < |s| - 1
  {
    s[i + 1] - s[i]
  }

  /** `np.diff`: the hour-over-hour growths, in order. */
  function GrowthRates(s: seq<int>): (g: seq<int>)
    requires |s| >= 1
    ensures |g| == |s| - 1
    ensures forall i :: 0 <= i < |g| ==> g[i] == Growth(s, i)
  {
    seq(|s| - 1, i requires 0 <= i < |s| - 1 => Growth(s, i))
  }

  /** The alert for a largest growth `g`: above 25 severe, above 15 moderate, otherwise stable. */
  function Classify(g: int): (c: Surge)
    ensures c == Severe <==> g > 25
    ensures c == Moderate <==> 15 < g <= 25
    ensures c == Stable <==> g <= 15
  {
    if g > 25 then Severe else if g > 15 then Moderate else Stable
  }

  /**
   * The alert for an adjusted forecast, the class of its largest
   * hour-over-hour growth: severe exactly when some hour grows by more than
   * 25, stable exactly when no hour grows by more than 15, and moderate
   * otherwise.
   */
  function SurgeLevel(s: seq<int>): (level: Surge)
    requires |s| >= 2
    ensures level == Severe <==> exists i :: 0 <= i < |s| - 1 && Growth(s, i) > 25
    ensures level == Stable <==> forall i :: 0 <= i < |s| - 1 ==> Growth(s, i) <= 15
    ensures level == Moderate <==>
      (exists i :: 0 <= i < |s| - 1 && Growth(s, i) > 15) && (forall i :: 0 <= i < |s| - 1 ==> Growth(s, i) <= 25)
  {
    var g := GrowthRates(s);
    Classify(Max(g))
  }

  /** The comparisons are strict: a growth of exactly 25 is moderate and of exactly 15 is stable. */
  lemma SurgeBoundaries()
    ensures Classify(26) == Severe && Classify(25) == Moderate
    ensures Classify(16) == Moderate && Classify(15) == Stable
  {
  }

  // ---------------------------------------------------------------------------
  // Guest-experience score
  // ---------------------------------------------------------------------------

  /** Guests one service staff member can serve well. */
  const ServiceCapacityPerStaff := 20

  /**
   * The guest-experience score: 100 minus the number of guests beyond what
   * the service staff can serve, never below 0.
   */
  function GuestScore(peak: int, serviceStaff: int): (score: int)
    ensures 0 <= score <= 100
    ensures score == 100 <==> peak <= ServiceCapacityPerStaff * serviceStaff
    ensures score == 0 <==> peak - ServiceCapacityPerStaff * serviceStaff >= 100
    ensures 0 < score < 100 ==> score + (peak - ServiceCapacityPerStaff * serviceStaff) == 100
  {
    var totalServiceCapacity := serviceStaff * ServiceCapacityPerStaff;
    var overflow := if peak - totalServiceCapacity > 0 then peak - totalServiceCapacity else 0;
    if 100 - overflow > 0 then 100 - overflow else 0
  }

  /**
   * With service staff at one per 25 guests and a service capacity of 20
   * each, the score is full only for an empty lounge.
   */
  lemma GuestScoreFullOnlyWhenEmpty(peak: int)
    requires peak >= 0
    ensures GuestScore(peak, MultiRoleStaffing(peak).service) == 100 <==> peak == 0
  {
    var service := MultiRoleStaffing(peak).service;
    assert service * 25 <= peak;
    if peak > 0 {
      assert ServiceCapacityPerStaff * service < peak by {
        if service > 0 {
          assert ServiceCapacityPerStaff * service < 25 * service;
        }
      }
    }
  }

  // ---------------------------------------------------------------------------
  // Catering table and sustainability
  // ---------------------------------------------------------------------------

  /** One row of the catering table: the forecast hour (from 1), its crowd and its menu. */
  datatype CateringRow = CateringRow(hour: int, crowd: int, menu: Menu)

  /** Builds the catering table, one row per forecast hour, appending in hour order. */
  method CateringTable(adjusted: seq<int>) returns (data: seq<CateringRow>)
    ensures |data| == |adjusted|
    ensures forall i :: 0 <= i < |adjusted| ==>
      data[i] == CateringRow(i + 1, adjusted[i], MenuRecommendation(adjusted[i]))
  {
    data := [];
    for i := 0 to |adjusted|
      invariant |data| == i
      invariant forall k :: 0 <= k < i ==> data[k] == CateringRow(k + 1, adjusted[k], MenuRecommendation(adjusted[k]))
    {
      var crowd := adjusted[i];
      var menu := MenuRecommendation(crowd);
      data := data + [CateringRow(i + 1, crowd, menu)];
    }
  }

  /** `sum(df["Snacks"])`: the snacks of the whole table. */
  function SnacksColumn(data: seq<CateringRow>): (total: int)
    ensures (forall i :: 0 <= i < |data| ==> data[i].menu.snacks >= 0) ==> total >= 0
  {
    if data == [] then 0
    else
      assert forall i :: 1 <= i < |data| ==> data[1..][i - 1] == data[i];
      data[0].menu.snacks + SnacksColumn(data[1..])
  }

  /** Snacks a traditional, unforecast plan provides over the six hours. */
  const TraditionalSnacks := 150 * 6

  /** Snacks saved against the traditional plan, and that saving as a score. */
  datatype Sustainability = Sustainability(wasteReduction: int, score: real)

  /**
   * The waste reduction is the traditional snack count minus the planned
   * one, never negative; the score is it as a percentage of the
   * traditional count, capped at 100.
   */
  function SustainabilityReport(aiSnacks: int): (r: Sustainability)
    ensures r.wasteReduction == if aiSnacks < TraditionalSnacks then TraditionalSnacks - aiSnacks else 0
    ensures r.wasteReduction >= 0
    ensures r.wasteReduction == 0 <==> aiSnacks >= TraditionalSnacks
    ensures aiSnacks >= 0 ==> r.wasteReduction <= TraditionalSnacks
    ensures r.wasteReduction + aiSnacks >= TraditionalSnacks
    ensures 0.0 <= r.score <= 100.0
    ensures r.wasteReduction <= TraditionalSnacks ==>
      r.score * TraditionalSnacks as real == 100.0 * r.wasteReduction as real
    ensures r.wasteReduction > TraditionalSnacks ==> r.score == 100.0
  {
    var waste := if TraditionalSnacks - aiSnacks > 0 then TraditionalSnacks - aiSnacks else 0;
    var ratio := (waste as real / TraditionalSnacks as real) * 100.0;
    Sustainability(waste, if ratio < 100.0 then ratio else 100.0)
  }

  // ---------------------------------------------------------------------------
  // Cost comparison
  // ---------------------------------------------------------------------------

  /** Cost of one staff member for one hour. */
  const AvgStaffCost := 500
  /** Staff a traditional, buffered plan keeps on duty. */
  const TraditionalStaffBaseline := 15

  /** The six-hour staff cost of the forecast plan and of the traditional one. */
  datatype Cost = Cost(aiCost: int, traditionalCost: int, savings: int)

  /**
   * The traditional plan always costs 45000; the savings are what the
   * forecast plan saves against it, reported as is, negative when the
   * forecast plan staffs more than 15.
   */
  function CostComparison(totalStaff: int): (c: Cost)
    ensures c.traditionalCost == 45000
    ensures c.aiCost == 3000 * totalStaff
    ensures c.savings == 3000 * (TraditionalStaffBaseline - totalStaff)
    ensures c.savings < 0 <==> totalStaff > TraditionalStaffBaseline
  {
    var traditionalCost := TraditionalStaffBaseline * AvgStaffCost * 6;
    var aiCost := totalStaff * AvgStaffCost * 6;
    Cost(aiCost, traditionalCost, traditionalCost - aiCost)
  }

  /**
   * With multi-role staffing the forecast plan costs more than the
   * traditional one exactly when the peak reaches the lounge capacity.
   */
  lemma SavingsNegativeExactlyAtCapacity(peak: int)
    ensures CostComparison(MultiRoleStaffing(peak).total).savings < 0 <==> peak >= MaxCapacity
  {
    assert MultiRoleStaffing(MaxCapacity).total == 16;
    assert MultiRoleStaffing(MaxCapacity - 1).total == 14;
    if peak >= MaxCapacity {
      MultiRoleStaffingMonotone(MaxCapacity, peak);
    } else {
      MultiRoleStaffingMonotone(peak, MaxCapacity - 1);
    }
  }

  // ---------------------------------------------------------------------------
  // The whole page
  // ---------------------------------------------------------------------------

  /** Everything the dashboard derives from one forecast. */
  datatype Report = Report(
    adjusted: seq<int>,
    summary: CrowdSummary,
    staffing: RoleStaffing,
    surge: Surge,
    guestScore: int,
    catering: seq<CateringRow>,
    sustainability: Sustainability,
    cost: Cost)

  /**
   * `report` is what the page shows for the base forecast `base`, the
   * schedule and the confidence margin: every figure is the function of the
   * adjusted forecast, or of another figure, that the page computes it with.
   */
  predicate Describes(report: Report, base: seq<real>, schedule: FlightSchedule, margin: nat)
  {
    && |base| >= 2
    && report.adjusted == AdjustPredictions(base, schedule)
    && report.summary == Summarize(report.adjusted, margin)
    && report.staffing == MultiRoleStaffing(report.summary.peak)
    && report.surge == SurgeLevel(report.adjusted)
    && report.guestScore == GuestScore(report.summary.peak, report.staffing.service)
    && |report.catering| == |report.adjusted|
    && (forall i :: 0 <= i < |report.catering| ==>
         report.catering[i] == CateringRow(i + 1, report.adjusted[i], MenuRecommendation(report.adjusted[i])))
    && report.sustainability == SustainabilityReport(SnacksColumn(report.catering))
    && report.cost == CostComparison(report.staffing.total)
  }

  /**
   * What a described report guarantees on its own terms: the summary brackets
   * the hours, the interval is the peak plus or minus the margin, score and
   * sustainability are percentages, a forecast with no negative hour saves at
   * most the traditional snack count, and the plan costs more than the
   * traditional one exactly when the peak reaches capacity.
   */
  lemma DescribedBounds(report: Report, base: seq<real>, schedule: FlightSchedule, margin: nat)
    requires Describes(report, base, schedule, margin)
    ensures |report.adjusted| == |base| == |report.catering|
    ensures report.summary.current == report.adjusted[0]
    ensures report.summary.peak in report.adjusted
    ensures forall i :: 0 <= i < |report.adjusted| ==> report.adjusted[i] <= report.summary.peak
    ensures report.summary.lower == report.summary.peak - margin
    ensures report.summary.upper == report.summary.peak + margin
    ensures 0 <= report.guestScore <= 100
    ensures 0.0 <= report.sustainability.score <= 100.0
    ensures (forall i :: 0 <= i < |report.adjusted| ==> report.adjusted[i] >= 0) ==>
      0 <= report.sustainability.wasteReduction <= TraditionalSnacks
    ensures report.cost.traditionalCost == 45000
    ensures report.cost.savings < 0 <==> report.summary.peak >= MaxCapacity
  {
    forall i | 0 <= i < |report.catering| && report.adjusted[i] >= 0
      ensures report.catering[i].menu.snacks >= 0
    {
      MenuOrdered(report.adjusted[i]);
    }
    SavingsNegativeExactlyAtCapacity(report.summary.peak);
  }

  /**
   * The page's analytics in script order, from the base forecast, the
   * schedule and the confidence margin. `max` over the hours and over their
   * growths needs at least two forecast hours; the rollout always gives six.
   */
  method Analyze(base: seq<real>, schedule: FlightSchedule, margin: nat) returns (report: Report)
    requires |base| >= 2
    ensures Describes(report, base, schedule, margin)
    ensures |report.adjusted| == |base| == |report.catering|
    ensures report.summary.lower == report.summary.peak - margin
    ensures report.summary.upper == report.summary.peak + margin
    ensures 0 <= report.guestScore <= 100
    ensures report.cost.savings < 0 <==> report.summary.peak >= MaxCapacity
  {
    var adjusted := AdjustPredictions(base, schedule);
    var summary := Summarize(adjusted, margin);
    var staffing := MultiRoleStaffing(summary.peak);
    var surge := SurgeLevel(adjusted);
    var guestScore := GuestScore(summary.peak, staffing.service);
    var catering := CateringTable(adjusted);
    var sustainability := SustainabilityReport(SnacksColumn(catering));
    var cost := CostComparison(staffing.total);
    report := Report(adjusted, summary, staffing, surge, guestScore, catering, sustainability, cost);
    DescribedBounds(report, base, schedule, margin);
  }

  /**
   * The page as a whole: forecast from the history, then analyse. A history
   * of fewer than two rows gives an empty feature table, on which
   * `predict_next_6_hours` raises IndexError; the model returns no report.
   */
  method RunDashboard(history: seq<HistoryRow>, predict: Predictor, schedule: FlightSchedule, margin: nat)
    returns (report: Option<Report>)
    ensures report.None? <==> |history| < 2
    ensures report.Some? ==> |report.value.adjusted| == Horizon
    ensures report.Some? ==>
      SeedRow(Preprocess(history).x).Some? &&
      Describes(report.value, Forecast(SeedRow(Preprocess(history).x).value, predict), schedule, margin)
  {
    var base := PredictNext6Hours(history, predict);
    if base.None? {
      return None;
    }
    var r := Analyze(base.value, schedule, margin);
    report := Some(r);
  }

  /**
   * A worked scenario: the page as shown for a model that always answers 50,
   * a schedule of 6 arrivals an hour, 180 seats and 15% lounge use (an
   * offset of 27). Every hour is 77 guests, staffed (3, 1, 1, 5), with no
   * surge and a guest score of 83; each hour's menu is (59, 42, 21), so
   * 354 snacks are planned and 546 saved, and the plan saves 30000.
   */
  lemma FlatScenario(report: Report, seed: FeatureRow, margin: nat)
    requires Describes(report, Forecast(seed, v => 50.0), FlightSchedule(6, 180, 15), margin)
    ensures FlightAdjustment(FlightSchedule(6, 180, 15)) == 27.0
    ensures report.adjusted == [77, 77, 77, 77, 77, 77]
    ensures report.summary.current == 77 && report.summary.peak == 77
    ensures report.staffing == RoleStaffing(3, 1, 1, 5)
    ensures report.surge == Stable
    ensures report.guestScore == 83
    ensures forall i :: 0 <= i < |report.catering| ==> report.catering[i].menu == Menu(59, 42, 21)
    ensures report.sustainability.wasteReduction == 546
    ensures report.cost == Cost(15000, 45000, 30000)
  {
    FlatForecast(seed);
    FlatFigures(report, margin);
    FlatSupplies(report, margin);
  }

  /** The scenario's headline figures once the constant model's forecast, six times 50, is known. */
  lemma FlatFigures(report: Report, margin: nat)
    requires Describes(report, [50.0, 50.0, 50.0, 50.0, 50.0, 50.0], FlightSchedule(6, 180, 15), margin)
    ensures report.adjusted == [77, 77, 77, 77, 77, 77]
    ensures report.summary.current == 77 && report.summary.peak == 77
    ensures report.staffing == RoleStaffing(3, 1, 1, 5)
    ensures report.surge == Stable
    ensures report.guestScore == 83
    ensures report.cost == Cost(15000, 45000, 30000)
  {
    FlatAdjusted();
    assert report.adjusted == [77, 77, 77, 77, 77, 77];
    assert Max([77, 77, 77, 77, 77, 77]) == 77;
    assert MultiRoleStaffing(77) == RoleStaffing(3, 1, 1, 5);
    FlatSurge();
  }

  /** The scenario's catering and sustainability figures. */
  lemma FlatSupplies(report: Report, margin: nat)
    requires Describes(report, [50.0, 50.0, 50.0, 50.0, 50.0, 50.0], FlightSchedule(6, 180, 15), margin)
    ensures forall i :: 0 <= i < |report.catering| ==> report.catering[i].menu == Menu(59, 42, 21)
    ensures report.sustainability.wasteReduction == 546
  {
    FlatAdjusted();
    assert report.adjusted == [77, 77, 77, 77, 77, 77];
    FlatCatering(report.catering, report.adjusted);
  }

  /** Six hours of 77 guests, each with menu (59, 42, 21), plan 354 snacks. */
  lemma FlatCatering(catering: seq<CateringRow>, adjusted: seq<int>)
    requires adjusted == [77, 77, 77, 77, 77, 77] && |catering| == |adjusted|
    requires forall i :: 0 <= i < |catering| ==>
      catering[i] == CateringRow(i + 1, adjusted[i], MenuRecommendation(adjusted[i]))
    ensures forall i :: 0 <= i < |catering| ==> catering[i].menu == Menu(59, 42, 21)
    ensures SnacksColumn(catering) == 354
  {
    assert MenuRecommendation(77) == Menu(59, 42, 21);
    assert SnacksColumn(catering[5..]) == 59;
    assert SnacksColumn(catering[4..]) == 118;
    assert SnacksColumn(catering[3..]) == 177;
    assert SnacksColumn(catering[2..]) == 236;
    assert SnacksColumn(catering[1..]) == 295;
  }

  /** A model that always answers 50 forecasts 50 for every hour. */
  lemma FlatForecast(seed: FeatureRow)
    ensures Forecast(seed, v => 50.0) == [50.0, 50.0, 50.0, 50.0, 50.0, 50.0]
  {
    ConstantPredictor(seed, v => 50.0, 50.0);
    Round2Exact(50.0);
  }

  /** A flat forecast has no growth, so no surge. */
  lemma FlatSurge()
    ensures SurgeLevel([77, 77, 77, 77, 77, 77]) == Stable
  {
    var flat := [77, 77, 77, 77, 77, 77];
    assert forall i :: 0 <= i < |flat| - 1 ==> Growth(flat, i) == 0;
  }

  /** The flat base forecast of 50 moves to a flat 77 under the scenario's schedule. */
  lemma FlatAdjusted()
    ensures AdjustPredictions([50.0, 50.0, 50.0, 50.0, 50.0, 50.0], FlightSchedule(6, 180, 15)) == [77, 77, 77, 77, 77, 77]
  {
    var schedule := FlightSchedule(6, 180, 15);
    assert FlightAdjustment(schedule) == 27.0;
    var adjusted := AdjustPredictions([50.0, 50.0, 50.0, 50.0, 50.0, 50.0], schedule);
    forall i | 0 <= i < |adjusted|
      ensures adjusted[i] == 77
    {
      assert adjusted[i] as real <= 77.0 < adjusted[i] as real + 1.0;
    }
  }
}

/** Properties of the viability calculator that relate inputs, modes or several calls. */
module CalcProperties {
  import opened Fields
  import opened Rounding
  import opened Calc

  /* ---- Reading the inputs ---- */

  /** How one numeric entry is read: its value when present, and 0 when it is missing or None. */
  predicate ReadAsNumber(f: Field<real>, v: real) {
    v == (if f.Present? then f.value else 0.0)
  }

  /** Each numeric input, field by field, is its own value when given and 0 when missing or None,
      exactly like an explicit 0. */
  lemma MissingNumbersReadAsZero(s: ScenarioInputs, a: ArchitectureInputs, k: RiskInputs, c: CostData)
    ensures var p := Normalize(s, a, k, c);
      && ReadAsNumber(s.monthlyVolume, p.volume) && ReadAsNumber(s.minutesPerUnit, p.minutesPerUnit)
      && ReadAsNumber(s.hourlyWage, p.hourlyWage) && ReadAsNumber(s.ticketCost, p.ticketCost)
      && ReadAsNumber(a.monthlyInfra, p.infra) && ReadAsNumber(a.tokensInPerUnit, p.tokensIn)
      && ReadAsNumber(a.tokensOutPerUnit, p.tokensOut) && ReadAsNumber(a.capex, p.capex)
      && ReadAsNumber(k.reviewPercent, p.reviewPercent) && ReadAsNumber(k.reviewMinutes, p.reviewMinutes)
      && ReadAsNumber(k.retentionPercent, p.retentionPercent)
  {
  }

  /** With nothing given and an empty price table, nothing is computed: the mode is automation,
      every amount is 0, ROI is 0 and payback is the 999 sentinel. */
  lemma EmptyInputsGiveZeroBreakdown()
    ensures var p := Normalize(ScenarioInputs(Absent, Absent, Absent, Absent, Absent),
                               ArchitectureInputs(Absent, Absent, Absent, Absent, Absent),
                               RiskInputs(Absent, Absent, Absent), CostData(map[], Absent));
      Evaluate(p) == Breakdown(Automation, ValueDriver(0.0, 0.0, 0.0, 0.0, 0.0),
                               0.0, 0.0, 0.0, 0.0, 0.0, PaybackSentinel)
  {
    var p := Normalize(ScenarioInputs(Absent, Absent, Absent, Absent, Absent),
                       ArchitectureInputs(Absent, Absent, Absent, Absent, Absent),
                       RiskInputs(Absent, Absent, Absent), CostData(map[], Absent));
    EmptyInputsNormalize();
    ZeroParamsEvaluate(p);
  }

  /** The same calculation as the caller sees it: every figure shown is 0 except the payback sentinel. */
  lemma EmptyInputsGiveZeroMetrics()
    ensures Calculate(ScenarioInputs(Absent, Absent, Absent, Absent, Absent),
                      ArchitectureInputs(Absent, Absent, Absent, Absent, Absent),
                      RiskInputs(Absent, Absent, Absent), CostData(map[], Absent))
         == Metrics(AsIs(0.0, 0.0), ToBe(0.0, 0.0, 0.0, 0.0), Outcome(0.0, 0.0, 0.0, PaybackSentinel, 0.0))
  {
    var b := Breakdown(Automation, ValueDriver(0.0, 0.0, 0.0, 0.0, 0.0), 0.0, 0.0, 0.0, 0.0, 0.0, PaybackSentinel);
    EmptyInputsGiveZeroBreakdown();
    CalculateIsReport(ScenarioInputs(Absent, Absent, Absent, Absent, Absent),
                      ArchitectureInputs(Absent, Absent, Absent, Absent, Absent),
                      RiskInputs(Absent, Absent, Absent), CostData(map[], Absent), b);
    ZeroBreakdownReport(b);
  }

  lemma EmptyInputsNormalize()
    ensures IsZero(Normalize(ScenarioInputs(Absent, Absent, Absent, Absent, Absent),
                             ArchitectureInputs(Absent, Absent, Absent, Absent, Absent),
                             RiskInputs(Absent, Absent, Absent), CostData(map[], Absent)))
  {
  }

  /** Automation with every number 0, no price and the default rate. */
  predicate IsZero(p: Params) {
    p == Params(Automation, 0.0, 0.0, 0.0, 0.0, 0.0, Price(0.0, 0.0), DefaultUsdToBrl,
                0.0, 0.0, 0.0, 0.0, 0.0, 0.0)
  }

  /* The zero calculation is proved field by field: as one equation it is too costly to check. */
  lemma ZeroParamsEvaluate(p: Params)
    requires IsZero(p)
    ensures Evaluate(p) == Breakdown(Automation, ValueDriver(0.0, 0.0, 0.0, 0.0, 0.0),
                                     0.0, 0.0, 0.0, 0.0, 0.0, PaybackSentinel)
  {
    ZeroParamsDriver(p);
    ZeroParamsCosts(p);
    ZeroParamsRoi(p);
  }

  lemma ZeroParamsDriver(p: Params)
    requires IsZero(p)
    ensures Evaluate(p).driver == ValueDriver(0.0, 0.0, 0.0, 0.0, 0.0)
    ensures Evaluate(p).mode == Automation && Evaluate(p).infra == 0.0
  {
    ZeroParamsAutomation(p);
  }

  lemma ZeroParamsAutomation(p: Params)
    requires IsZero(p)
    ensures AutomationDriver(p) == ValueDriver(0.0, 0.0, 0.0, 0.0, 0.0)
  {
    NoVolumeNoHours(p);
    ZeroProduct(ManualHours(p), p.hourlyWage);
    ZeroProduct(ReviewHours(p), p.hourlyWage);
  }

  lemma NoVolumeNoHours(p: Params)
    requires p.volume == 0.0
    ensures ManualHours(p) == 0.0 && ReviewHours(p) == 0.0
  {
  }

  lemma ZeroProduct(x: real, y: real)
    requires x == 0.0
    ensures x * y == 0.0
  {
  }

  lemma ZeroParamsCosts(p: Params)
    requires IsZero(p)
    ensures Evaluate(p).tokens == 0.0 && Evaluate(p).operational == 0.0 && Evaluate(p).saving == 0.0
  {
  }

  lemma ZeroParamsRoi(p: Params)
    requires IsZero(p)
    ensures Evaluate(p).roi == 0.0 && Evaluate(p).payback == PaybackSentinel
  {
  }

  lemma ZeroBreakdownReport(b: Breakdown)
    requires b == Breakdown(Automation, ValueDriver(0.0, 0.0, 0.0, 0.0, 0.0),
                            0.0, 0.0, 0.0, 0.0, 0.0, PaybackSentinel)
    ensures Report(b) == Metrics(AsIs(0.0, 0.0), ToBe(0.0, 0.0, 0.0, 0.0),
                                 Outcome(0.0, 0.0, 0.0, PaybackSentinel, 0.0))
  {
    RoundExact(0.0, 1, 0);
    RoundExact(0.0, 2, 0);
    RoundExact(PaybackSentinel, 1, 9990);
  }

  /** The default project type is automation; an explicit None selects the FAQ model. */
  lemma DefaultProjectTypeIsAutomation(s: ScenarioInputs)
    ensures s.projectType.Absent? ==> ModeOf(s) == Automation
    ensures s.projectType.Null? ==> ModeOf(s) == Deflection
  {
  }

  /** A model the price table does not list, or a model given as None, costs nothing in tokens. */
  lemma UnknownModelHasNoTokenCost(s: ScenarioInputs, a: ArchitectureInputs, k: RiskInputs, c: CostData)
    requires ModelName(a).None? || ModelName(a).value !in c.apiPricesUsd
    ensures Evaluate(Normalize(s, a, k, c)).tokens == 0.0
  {
  }

  /** Only the selected model's entry of the price table matters: tables that agree on it
      (and the same rate) give the same result. */
  lemma OnlySelectedPriceMatters(s: ScenarioInputs, a: ArchitectureInputs, k: RiskInputs, c: CostData, c': CostData)
    requires c.usdToBrl == c'.usdToBrl
    requires ModelName(a).Some? ==>
      (ModelName(a).value in c.apiPricesUsd <==> ModelName(a).value in c'.apiPricesUsd)
    requires ModelName(a).Some? && ModelName(a).value in c.apiPricesUsd ==>
      c.apiPricesUsd[ModelName(a).value] == c'.apiPricesUsd[ModelName(a).value]
    ensures Calculate(s, a, k, c) == Calculate(s, a, k, c')
  {
    assert Normalize(s, a, k, c) == Normalize(s, a, k, c');
  }

  /* ---- The two value models ---- */

  /** Automation: review hours are V x review% x review minutes / 60, the review cost is those
      hours at the same wage, and the hours freed are the manual hours minus the review hours;
      with no review the review cost is 0 and every manual hour is freed. */
  lemma AutomationHours(p: Params)
    requires p.mode == Automation
    ensures var b := Evaluate(p);
      && b.driver.asIsHours == p.volume * p.minutesPerUnit / MinutesPerHour
      && b.driver.asIsCost == b.driver.asIsHours * p.hourlyWage
      && b.driver.reviewCost == ReviewHours(p) * p.hourlyWage
      && b.driver.hoursFreed == b.driver.asIsHours - ReviewHours(p)
      && (p.reviewPercent == 0.0 ==>
            b.driver.reviewCost == 0.0 && b.driver.hoursFreed == b.driver.asIsHours
            && b.operational == p.infra + b.tokens)
  {
  }

  /** FAQ: the as-is cost is V x ticket cost, the value is the retained share of it, no review
      is paid, ten minutes are freed per deflected ticket and no as-is hours are reported. */
  lemma DeflectionValue(p: Params)
    requires p.mode == Deflection
    ensures var b := Evaluate(p);
      var deflected := p.volume * (p.retentionPercent / 100.0);
      && b.driver.asIsCost == p.volume * p.ticketCost
      && b.driver.value == deflected * p.ticketCost
      && b.driver.reviewCost == 0.0 && b.driver.asIsHours == 0.0
      && b.driver.hoursFreed * 6.0 == deflected
      && (p.retentionPercent == 0.0 ==> b.driver.value == 0.0 && b.saving == -b.operational)
      && (NonNegative(p) && p.retentionPercent <= 100.0 ==> 0.0 <= b.driver.value <= b.driver.asIsCost)
  {
  }

  /** In automation mode the FAQ inputs (ticket cost, retention) are ignored. */
  lemma AutomationIgnoresFaqInputs(p: Params, ticketCost: real, retentionPercent: real)
    requires p.mode == Automation
    ensures Evaluate(p.(ticketCost := ticketCost, retentionPercent := retentionPercent)) == Evaluate(p)
  {
    var p' := p.(ticketCost := ticketCost, retentionPercent := retentionPercent);
    TokensIgnoreValueInputs(p, p');
    AutomationDriverIgnoresFaqInputs(p, ticketCost, retentionPercent);
  }

  lemma AutomationDriverIgnoresFaqInputs(p: Params, ticketCost: real, retentionPercent: real)
    ensures AutomationDriver(p.(ticketCost := ticketCost, retentionPercent := retentionPercent))
         == AutomationDriver(p)
  {
  }

  lemma DeflectionDriverIgnoresAutomationInputs(p: Params, minutes: real, wage: real, reviewPercent: real, reviewMinutes: real)
    ensures DeflectionDriver(p.(minutesPerUnit := minutes, hourlyWage := wage, reviewPercent := reviewPercent,
                                reviewMinutes := reviewMinutes))
         == DeflectionDriver(p)
  {
  }

  /** The token cost reads only the volume, the token counts, the price and the rate. */
  lemma TokensIgnoreValueInputs(p: Params, q: Params)
    requires p.volume == q.volume && p.tokensIn == q.tokensIn && p.tokensOut == q.tokensOut
    requires p.price == q.price && p.usdToBrl == q.usdToBrl
    ensures TokenCostBrl(p) == TokenCostBrl(q)
  {
  }

  /** In FAQ mode the automation inputs (manual minutes, wage, review share and minutes) are ignored. */
  lemma FaqIgnoresAutomationInputs(p: Params, minutes: real, wage: real, reviewPercent: real, reviewMinutes: real)
    requires p.mode == Deflection
    ensures Evaluate(p.(minutesPerUnit := minutes, hourlyWage := wage, reviewPercent := reviewPercent,
                        reviewMinutes := reviewMinutes)) == Evaluate(p)
  {
    var p' := p.(minutesPerUnit := minutes, hourlyWage := wage, reviewPercent := reviewPercent,
                 reviewMinutes := reviewMinutes);
    TokensIgnoreValueInputs(p, p');
    DeflectionDriverIgnoresAutomationInputs(p, minutes, wage, reviewPercent, reviewMinutes);
  }

  /* ---- A per-unit view of the saving ---- */

  /** Token spend of one unit of volume, in BRL. */
  function UnitTokenCostBrl(p: Params): real {
    (p.tokensIn * p.price.input + p.tokensOut * p.price.output) / TokensPerPriceUnit * p.usdToBrl
  }

  /** What one unit of volume is worth before its tokens: the manual work it removes net of
      its review, or the share of its ticket the AI retains. */
  function UnitGross(p: Params): real {
    match p.mode
    case Automation =>
      (p.minutesPerUnit - (p.reviewPercent / 100.0) * p.reviewMinutes) * p.hourlyWage / MinutesPerHour
    case Deflection =>
      (p.retentionPercent / 100.0) * p.ticketCost
  }

  /** What one unit of volume is worth once its own token and review costs are paid. */
  function UnitMargin(p: Params): real {
    UnitGross(p) - UnitTokenCostBrl(p)
  }

  /** The monthly saving is the volume times the per-unit margin, less the fixed infrastructure. */
  lemma SavingIsLinearInVolume(p: Params)
    ensures Evaluate(p).saving == p.volume * UnitMargin(p) - p.infra
  {
    var b := Evaluate(p);
    SavingDecomposes(p);
    TokensAreLinear(p);
    GrossIsLinear(p);
    Substitute(b.saving, b.driver.value - b.driver.reviewCost, TokenCostBrl(p), p.infra,
               p.volume, UnitGross(p), UnitTokenCostBrl(p), UnitMargin(p));
  }

  lemma Substitute(saving: real, gross: real, tokens: real, infra: real, v: real, g: real, t: real, m: real)
    requires saving == gross - tokens - infra && gross == v * g && tokens == v * t && m == g - t
    ensures saving == v * m - infra
  {
    Distribute(v, g, t, m);
  }

  lemma SavingDecomposes(p: Params)
    ensures Evaluate(p).saving
         == (Evaluate(p).driver.value - Evaluate(p).driver.reviewCost) - TokenCostBrl(p) - p.infra
  {
    var b := Evaluate(p);
    Combine(b.saving, b.driver.value, b.driver.reviewCost, p.infra, b.tokens);
  }

  lemma TokensAreLinear(p: Params)
    ensures TokenCostBrl(p) == p.volume * UnitTokenCostBrl(p)
  {
    var unitUsd := (p.tokensIn * p.price.input + p.tokensOut * p.price.output) / TokensPerPriceUnit;
    Regroup(unitUsd, p.volume, p.usdToBrl);
  }

  lemma GrossIsLinear(p: Params)
    ensures Evaluate(p).driver.value - Evaluate(p).driver.reviewCost == p.volume * UnitGross(p)
  {
    if p.mode == Automation {
      AutomationNet(p.volume, p.minutesPerUnit, p.reviewPercent / 100.0, p.reviewMinutes, p.hourlyWage);
    } else {
      Associate(p.volume, p.retentionPercent / 100.0, p.ticketCost);
    }
  }

  lemma Combine(saving: real, value: real, review: real, infra: real, tokens: real)
    requires saving + (infra + tokens + review) == value
    ensures saving == (value - review) - tokens - infra
  {
  }

  lemma Regroup(u: real, v: real, r: real)
    ensures u * v * r == v * (u * r)
  {
  }

  lemma Associate(v: real, x: real, y: real)
    ensures v * x * y == v * (x * y)
  {
  }

  lemma Distribute(v: real, x: real, y: real, z: real)
    requires z == x - y
    ensures v * x - v * y == v * z
  {
  }

  lemma AutomationNet(v: real, minutes: real, share: real, reviewMinutes: real, wage: real)
    ensures v * minutes / MinutesPerHour * wage - v * share * reviewMinutes / MinutesPerHour * wage
         == v * ((minutes - share * reviewMinutes) * wage / MinutesPerHour)
  {
  }

  /** The solution saves money, and has a positive ROI, exactly when the volume times the
      per-unit margin covers the fixed infrastructure. */
  lemma BreakEvenVolume(p: Params)
    ensures Evaluate(p).saving > 0.0 <==> p.volume * UnitMargin(p) > p.infra
    ensures Evaluate(p).roi > 0.0 <==> p.volume * UnitMargin(p) > p.infra
  {
    SavingIsLinearInVolume(p);
  }

  /** More volume never lowers the saving when each unit earns a non-negative margin. */
  lemma SavingGrowsWithVolume(p: Params, volume': real)
    requires p.volume <= volume' && UnitMargin(p) >= 0.0
    ensures Evaluate(p).saving <= Evaluate(p.(volume := volume')).saving
  {
    var p' := p.(volume := volume');
    SavingIsLinearInVolume(p);
    SavingIsLinearInVolume(p');
    MarginIgnoresVolume(p, volume');
    LinearGrowth(p.volume, p'.volume, UnitMargin(p), UnitMargin(p'), p.infra, p'.infra,
                 Evaluate(p).saving, Evaluate(p').saving);
  }

  lemma MarginIgnoresVolume(p: Params, volume': real)
    ensures UnitMargin(p.(volume := volume')) == UnitMargin(p)
  {
  }

  lemma LinearGrowth(v: real, v': real, m: real, m': real, i: real, i': real, s: real, s': real)
    requires s == v * m - i && s' == v' * m' - i' && m' == m && i' == i && v <= v' && m >= 0.0
    ensures s <= s'
  {
    ProductMonotone(v, v', m);
  }

  /** Automation: reviewing a larger share never raises the saving or the hours freed. */
  lemma MoreReviewSavesLess(p: Params, reviewPercent': real)
    requires p.mode == Automation && NonNegative(p) && p.reviewPercent <= reviewPercent'
    ensures var p' := p.(reviewPercent := reviewPercent');
      && Evaluate(p').saving <= Evaluate(p).saving
      && Evaluate(p').driver.hoursFreed <= Evaluate(p).driver.hoursFreed
  {
    var p' := p.(reviewPercent := reviewPercent');
    var b, b' := Evaluate(p), Evaluate(p');
    ReviewCostGrows(p, reviewPercent');
    TokensIgnoreValueInputs(p, p');
    SavingFallsWithCost(b.saving, b'.saving, b.driver.value, b'.driver.value, b.infra, b'.infra,
                        b.tokens, b'.tokens, b.driver.reviewCost, b'.driver.reviewCost);
  }

  /** Automation: a larger review share costs more and frees fewer hours, for the same value. */
  lemma ReviewCostGrows(p: Params, reviewPercent': real)
    requires NonNegative(p) && p.reviewPercent <= reviewPercent'
    ensures var d, d' := AutomationDriver(p), AutomationDriver(p.(reviewPercent := reviewPercent'));
      && d'.value == d.value && d.reviewCost <= d'.reviewCost && d'.hoursFreed <= d.hoursFreed
  {
    var p' := p.(reviewPercent := reviewPercent');
    var hours, hours' := ReviewHours(p), ReviewHours(p');
    ReviewHoursMonotone(p.volume, p.reviewPercent / 100.0, reviewPercent' / 100.0, p.reviewMinutes);
    assert hours <= hours';
    ReviewCostIsPaidHours(p);
    ReviewCostIsPaidHours(p');
    ProductMonotone(hours, hours', p.hourlyWage);
    assert ManualHours(p') == ManualHours(p);
  }

  lemma ReviewCostIsPaidHours(p: Params)
    ensures AutomationDriver(p).reviewCost == ReviewHours(p) * p.hourlyWage
    ensures AutomationDriver(p).value == ManualHours(p) * p.hourlyWage
  {
  }

  lemma SavingFallsWithCost(s: real, s': real, v: real, v': real, i: real, i': real,
                            t: real, t': real, r: real, r': real)
    requires s + (i + t + r) == v && s' + (i' + t' + r') == v'
    requires v' == v && i' == i && t' == t && r <= r'
    ensures s' <= s
  {
  }

  lemma ReviewHoursMonotone(v: real, share: real, share': real, reviewMinutes: real)
    requires v >= 0.0 && share <= share' && reviewMinutes >= 0.0
    ensures v * share * reviewMinutes / MinutesPerHour <= v * share' * reviewMinutes / MinutesPerHour
  {
    ProductMonotone(share, share', v);
    assert v * share <= v * share';
    ProductMonotone(v * share, v * share', reviewMinutes);
  }

  /** FAQ: a higher retention never lowers the value generated or the saving. */
  lemma MoreRetentionSavesMore(p: Params, retentionPercent': real)
    requires p.mode == Deflection && NonNegative(p) && p.retentionPercent <= retentionPercent'
    ensures var p' := p.(retentionPercent := retentionPercent');
      && Evaluate(p).driver.value <= Evaluate(p').driver.value
      && Evaluate(p).saving <= Evaluate(p').saving
  {
    var p' := p.(retentionPercent := retentionPercent');
    var b, b' := Evaluate(p), Evaluate(p');
    DeflectionValueGrows(p, retentionPercent');
    TokensIgnoreValueInputs(p, p');
    SavingRisesWithValue(b.saving, b'.saving, b.driver.value, b'.driver.value, b.infra, b'.infra,
                         b.tokens, b'.tokens, b.driver.reviewCost, b'.driver.reviewCost);
  }

  lemma SavingRisesWithValue(s: real, s': real, v: real, v': real, i: real, i': real,
                             t: real, t': real, r: real, r': real)
    requires s + (i + t + r) == v && s' + (i' + t' + r') == v'
    requires i' == i && t' == t && r' == r && v <= v'
    ensures s <= s'
  {
  }

  lemma DeflectionValueGrows(p: Params, retentionPercent': real)
    requires NonNegative(p) && p.retentionPercent <= retentionPercent'
    ensures DeflectionDriver(p).value <= DeflectionDriver(p.(retentionPercent := retentionPercent')).value
  {
    var d, d' := DeflectionDriver(p), DeflectionDriver(p.(retentionPercent := retentionPercent'));
    var r, r' := p.retentionPercent / 100.0, retentionPercent' / 100.0;
    assert d.value == d.asIsCost * r && d'.value == d'.asIsCost * r';
    assert d'.asIsCost == d.asIsCost && d.asIsCost >= 0.0;
    ScaledValueGrows(d.asIsCost, r, r', d.value, d'.value);
  }

  lemma ScaledValueGrows(c: real, x: real, y: real, v: real, v': real)
    requires c >= 0.0 && x <= y && v == c * x && v' == c * y
    ensures v <= v'
  {
    ProductMonotone(x, y, c);
  }

  /* ---- ROI and payback in the whole calculation ---- */

  /** A solution that costs nothing and still saves money gets the ROI sentinel, and its
      payback is the capex over the whole value generated. */
  lemma CostFreeSolutionHitsRoiSentinel(p: Params)
    requires Evaluate(p).operational == 0.0 && Evaluate(p).driver.value > 0.0
    ensures Evaluate(p).roi == RoiSentinel
    ensures Evaluate(p).payback * Evaluate(p).driver.value == p.capex
  {
  }

  /** A solution that saves nothing never pays back and never shows a positive ROI. */
  lemma NoSavingNoPayback(p: Params)
    requires Evaluate(p).saving <= 0.0
    ensures Evaluate(p).payback == PaybackSentinel && Evaluate(p).roi <= 0.0
  {
  }
}

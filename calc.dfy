/** The viability calculator `calcula_metricas_genai`: the monthly cost of the current manual
    process ("as-is"), the monthly cost of the generative-AI solution ("to-be": fixed
    infrastructure, tokens converted from USD to BRL, human-in-the-loop review) and the
    outcome (value generated, net saving, ROI, payback, hours freed). */
module Calc {
  import opened Fields
  import opened Rounding

  /** The project type that selects the automation value model; any other selects FAQ. */
  const AutomationType := "automacao"
  /** The model looked up when the input names none. */
  const DefaultModel := "gemini-2.5-flash"
  /** The USD to BRL rate used when the cost data has none (or 0). */
  const DefaultUsdToBrl := 6.0
  /** Prices are quoted per million tokens. */
  const TokensPerPriceUnit := 1000000.0
  const MinutesPerHour := 60.0
  /** Minutes of human service one deflected ticket is assumed to save. */
  const MinutesPerDeflectedTicket := 10.0
  /** ROI reported when the AI solution costs nothing and still saves money. */
  const RoiSentinel := 9999.0
  /** Payback reported when there is no positive saving to pay the investment back. */
  const PaybackSentinel := 999.0

  /** First input group: the process being replaced. */
  datatype ScenarioInputs = ScenarioInputs(
    projectType: Field<string>,    // tipo_projeto
    monthlyVolume: Field<real>,    // volume_mensal
    minutesPerUnit: Field<real>,   // tempo_por_unidade_min
    hourlyWage: Field<real>,       // salario_hora_brl
    ticketCost: Field<real>)       // custo_por_ticket_brl

  /** Second input group: the AI solution's architecture and costs. */
  datatype ArchitectureInputs = ArchitectureInputs(
    monthlyInfra: Field<real>,     // custo_infra_mensal_brl
    model: Field<string>,          // modelo_llm
    tokensInPerUnit: Field<real>,  // tokens_input_por_unidade
    tokensOutPerUnit: Field<real>, // tokens_output_por_unidade
    capex: Field<real>)            // custo_implementacao_capex_brl

  /** Third input group: human review and expected retention. */
  datatype RiskInputs = RiskInputs(
    reviewPercent: Field<real>,    // taxa_revisao_percentual
    reviewMinutes: Field<real>,    // tempo_revisao_min
    retentionPercent: Field<real>) // taxa_retencao_ia_percentual

  /** USD per million input and output tokens. */
  datatype Price = Price(input: real, output: real)

  /** The price table and the exchange rate. */
  datatype CostData = CostData(
    apiPricesUsd: map<string, Price>, // CUSTOS_API_USD
    usdToBrl: Field<real>)            // TAXA_CONVERSAO_BRL_USD

  datatype Mode = Automation | Deflection

  /** Every input as the calculator reads it, after its defaults are applied. */
  datatype Params = Params(
    mode: Mode,
    volume: real,
    minutesPerUnit: real,
    hourlyWage: real,
    ticketCost: real,
    infra: real,
    price: Price,
    usdToBrl: real,
    tokensIn: real,
    tokensOut: real,
    capex: real,
    reviewPercent: real,
    reviewMinutes: real,
    retentionPercent: real)

  predicate NonNegativeInputs(s: ScenarioInputs, a: ArchitectureInputs, k: RiskInputs, c: CostData) {
    && NonNegativeField(s.monthlyVolume) && NonNegativeField(s.minutesPerUnit)
    && NonNegativeField(s.hourlyWage) && NonNegativeField(s.ticketCost)
    && NonNegativeField(a.monthlyInfra) && NonNegativeField(a.tokensInPerUnit)
    && NonNegativeField(a.tokensOutPerUnit) && NonNegativeField(a.capex)
    && NonNegativeField(k.reviewPercent) && NonNegativeField(k.reviewMinutes)
    && NonNegativeField(k.retentionPercent) && NonNegativeField(c.usdToBrl)
    && forall name | name in c.apiPricesUsd :: c.apiPricesUsd[name].input >= 0.0 && c.apiPricesUsd[name].output >= 0.0
  }

  predicate NonNegative(p: Params) {
    && p.volume >= 0.0 && p.minutesPerUnit >= 0.0 && p.hourlyWage >= 0.0 && p.ticketCost >= 0.0
    && p.infra >= 0.0 && p.price.input >= 0.0 && p.price.output >= 0.0 && p.usdToBrl >= 0.0
    && p.tokensIn >= 0.0 && p.tokensOut >= 0.0 && p.capex >= 0.0
    && p.reviewPercent >= 0.0 && p.reviewMinutes >= 0.0 && p.retentionPercent >= 0.0
  }

  /** `tipo_projeto` defaults to automation only when the key is missing; an explicit None,
      like every other value, selects the FAQ model. */
  function ModeOf(s: ScenarioInputs): (m: Mode)
    ensures m == Automation <==> s.projectType.Absent? || s.projectType == Present(AutomationType)
  {
    if Get(s.projectType, AutomationType) == Some(AutomationType) then Automation else Deflection
  }

  /** The name looked up in the price table; None when the input maps the key to None. */
  function ModelName(a: ArchitectureInputs): Option<string> {
    Get(a.model, DefaultModel)
  }

  /** The price of the selected model; a model the table does not list costs (0, 0). */
  function PriceOf(a: ArchitectureInputs, table: map<string, Price>): (p: Price)
    ensures p in table.Values || p == Price(0.0, 0.0)
    ensures ModelName(a).Some? && ModelName(a).value in table ==> p == table[ModelName(a).value]
    ensures ModelName(a).None? || ModelName(a).value !in table ==> p == Price(0.0, 0.0)
  {
    match ModelName(a)
    case None => Price(0.0, 0.0)
    case Some(name) => if name in table then table[name] else Price(0.0, 0.0)
  }

  /** The exchange rate is never 0: a missing, None or 0 rate falls back to 6.0. */
  function ExchangeRate(c: CostData): (r: real)
    ensures r != 0.0
    ensures c.usdToBrl.Absent? || c.usdToBrl.Null? || c.usdToBrl.value == 0.0 ==> r == DefaultUsdToBrl
    ensures c.usdToBrl.Present? && c.usdToBrl.value != 0.0 ==> r == c.usdToBrl.value
  {
    OrElse(c.usdToBrl, DefaultUsdToBrl)
  }

  /** Reads every input with its default (calc_logic.py:17-31, 47-48, 55-57, 74-76, 115). */
  function Normalize(s: ScenarioInputs, a: ArchitectureInputs, k: RiskInputs, c: CostData): (p: Params)
    ensures p.usdToBrl != 0.0
    ensures p.price in c.apiPricesUsd.Values || p.price == Price(0.0, 0.0)
    ensures NonNegativeInputs(s, a, k, c) ==> NonNegative(p)
  {
    Params(
      mode := ModeOf(s),
      volume := OrElse(s.monthlyVolume, 0.0),
      minutesPerUnit := OrElse(s.minutesPerUnit, 0.0),
      hourlyWage := OrElse(s.hourlyWage, 0.0),
      ticketCost := OrElse(s.ticketCost, 0.0),
      infra := OrElse(a.monthlyInfra, 0.0),
      price := PriceOf(a, c.apiPricesUsd),
      usdToBrl := ExchangeRate(c),
      tokensIn := OrElse(a.tokensInPerUnit, 0.0),
      tokensOut := OrElse(a.tokensOutPerUnit, 0.0),
      capex := OrElse(a.capex, 0.0),
      reviewPercent := OrElse(k.reviewPercent, 0.0),
      reviewMinutes := OrElse(k.reviewMinutes, 0.0),
      retentionPercent := OrElse(k.retentionPercent, 0.0))
  }

  /** Monthly token spend in BRL: per-unit USD price of the tokens, times the volume, times the rate. */
  function TokenCostBrl(p: Params): (r: real)
    ensures NonNegative(p) ==> r >= 0.0
    ensures p.price == Price(0.0, 0.0) || p.volume == 0.0 ==> r == 0.0
  {
    var unitUsd := (p.tokensIn * p.price.input + p.tokensOut * p.price.output) / TokensPerPriceUnit;
    NonNegativeProduct3(unitUsd, p.volume, p.usdToBrl);
    unitUsd * p.volume * p.usdToBrl
  }

  /** What a value model yields: the as-is cost, the as-is hours it reports, the gross value
      generated, the human-review (HITL) cost and the hours freed. */
  datatype ValueDriver = ValueDriver(asIsCost: real, asIsHours: real, value: real, reviewCost: real, hoursFreed: real)

  /** Hours the manual process takes per month. */
  function ManualHours(p: Params): real {
    p.volume * p.minutesPerUnit / MinutesPerHour
  }

  /** Hours people spend per month reviewing the AI's output. */
  function ReviewHours(p: Params): real {
    p.volume * (p.reviewPercent / 100.0) * p.reviewMinutes / MinutesPerHour
  }

  /** Automation: the value is the whole manual cost removed; review hours are paid at the
      same wage and do not count as freed. */
  function AutomationDriver(p: Params): (d: ValueDriver)
    ensures d.value == d.asIsCost && d.asIsHours == ManualHours(p)
    ensures d.hoursFreed == d.asIsHours - ReviewHours(p)
    ensures NonNegative(p) ==> d.asIsCost >= 0.0 && d.reviewCost >= 0.0 && d.asIsHours >= 0.0
    ensures NonNegative(p) && p.reviewPercent <= 100.0 && p.reviewMinutes <= p.minutesPerUnit ==>
      d.reviewCost <= d.asIsCost && 0.0 <= d.hoursFreed <= d.asIsHours
  {
    var hours := ManualHours(p);
    var reviewHours := ReviewHours(p);
    var asIsCost := hours * p.hourlyWage;
    var reviewCost := reviewHours * p.hourlyWage;
    NonNegativeProduct3(p.volume, p.minutesPerUnit, 1.0 / MinutesPerHour);
    NonNegativeProduct3(p.volume, p.reviewPercent / 100.0, p.reviewMinutes / MinutesPerHour);
    NonNegativeProduct3(hours, p.hourlyWage, 1.0);
    NonNegativeProduct3(reviewHours, p.hourlyWage, 1.0);
    ReviewWithinManual(p.volume, p.reviewPercent / 100.0, p.reviewMinutes, p.minutesPerUnit);
    ProductMonotone(reviewHours, hours, p.hourlyWage);
    ValueDriver(asIsCost, hours, asIsCost, reviewCost, hours - reviewHours)
  }

  /** FAQ / deflection: the value is the cost of the tickets the AI resolves; there is no
      review cost, and each deflected ticket frees ten minutes. */
  function DeflectionDriver(p: Params): (d: ValueDriver)
    ensures d.reviewCost == 0.0 && d.asIsHours == 0.0
    ensures d.value == d.asIsCost * (p.retentionPercent / 100.0)
    ensures NonNegative(p) ==> d.asIsCost >= 0.0 && d.value >= 0.0 && d.hoursFreed >= 0.0
    ensures NonNegative(p) && p.retentionPercent <= 100.0 ==> d.value <= d.asIsCost
  {
    var asIsCost := p.volume * p.ticketCost;
    var deflected := p.volume * (p.retentionPercent / 100.0);
    var value := deflected * p.ticketCost;
    Rearrange(p.volume, p.retentionPercent / 100.0, p.ticketCost);
    NonNegativeProduct3(p.volume, p.ticketCost, 1.0);
    NonNegativeProduct3(p.volume, p.retentionPercent / 100.0, 1.0);
    NonNegativeProduct3(deflected, p.ticketCost, 1.0);
    NonNegativeProduct3(deflected, MinutesPerDeflectedTicket / MinutesPerHour, 1.0);
    ScaledWithin(asIsCost, p.retentionPercent / 100.0);
    ValueDriver(asIsCost, 0.0, value, 0.0, deflected * (MinutesPerDeflectedTicket / MinutesPerHour))
  }

  /** x / y for a positive y: the sign of x, and multiplying back by y gives x. */
  function Ratio(x: real, y: real): (q: real)
    requires y > 0.0
    ensures (q > 0.0 <==> x > 0.0) && (q >= 0.0 <==> x >= 0.0) && q * y == x
  {
    QuotientSign(x, y);
    x / y
  }

  /** ROI in percent. It never divides by zero: with no positive cost it is 0 when nothing is
      saved and the sentinel 9999 when something is. Its sign is always the saving's. */
  function Roi(saving: real, cost: real): (r: real)
    ensures cost <= 0.0 ==> r == (if saving > 0.0 then RoiSentinel else 0.0)
    ensures r > 0.0 <==> saving > 0.0
  {
    if cost > 0.0 then
      Ratio(saving, cost) * 100.0
    else if saving <= 0.0 then 0.0
    else RoiSentinel
  }

  /** Months until the saving pays the one-off implementation cost back: after that many
      months the accumulated saving equals the capex. Without a positive saving it is 999. */
  function PaybackMonths(capex: real, saving: real): (r: real)
    ensures saving <= 0.0 ==> r == PaybackSentinel
    ensures capex >= 0.0 ==> r >= 0.0
  {
    if saving > 0.0 then
      Ratio(capex, saving)
    else PaybackSentinel
  }

  /** The unrounded figures of one calculation. */
  datatype Breakdown = Breakdown(
    mode: Mode,
    driver: ValueDriver,
    infra: real,
    tokens: real,
    operational: real,
    saving: real,
    roi: real,
    payback: real)

  predicate CostsNonNegative(b: Breakdown) {
    && b.infra >= 0.0 && b.tokens >= 0.0 && b.driver.reviewCost >= 0.0
    && b.operational >= 0.0 && b.driver.asIsCost >= 0.0
  }

  /** The calculation proper (calc_logic.py:16-116). The to-be total is the sum of its three
      parts, the saving is what the value leaves after it, and ROI and payback follow the
      saving as their rules say. */
  function Evaluate(p: Params): (b: Breakdown)
    ensures b.mode == p.mode && b.infra == p.infra && b.tokens == TokenCostBrl(p)
    ensures b.driver == (if p.mode == Automation then AutomationDriver(p) else DeflectionDriver(p))
    ensures b.operational == b.infra + b.tokens + b.driver.reviewCost
    ensures b.saving + b.operational == b.driver.value
    ensures b.roi > 0.0 <==> b.saving > 0.0
    ensures b.saving <= 0.0 ==> b.payback == PaybackSentinel
    ensures NonNegative(p) ==> CostsNonNegative(b) && b.payback >= 0.0
  {
    var tokens := TokenCostBrl(p);
    var driver := if p.mode == Automation then AutomationDriver(p) else DeflectionDriver(p);
    var operational := p.infra + tokens + driver.reviewCost;
    var saving := driver.value - operational;
    Breakdown(p.mode, driver, p.infra, tokens, operational, saving,
              Roi(saving, operational), PaybackMonths(p.capex, saving))
  }

  /** The result record: money to 2 decimals, hours, ROI and payback to 1. */
  datatype AsIs = AsIs(totalCost: real, totalHours: real)
  datatype ToBe = ToBe(infra: real, tokens: real, hitl: real, totalAi: real)
  datatype Outcome = Outcome(valueGenerated: real, netSaving: real, roi: real, payback: real, hoursFreed: real)
  datatype Metrics = Metrics(asIs: AsIs, toBe: ToBe, outcome: Outcome)

  /** True when `shown` is x rounded to d decimals: no further than half a unit of the last place. */
  predicate Near(shown: real, x: real, d: nat) {
    Abs(shown - x) * Pow10(d) <= 0.5
  }

  /** Builds the result record from the unrounded figures (calc_logic.py:119-140). As-is hours
      are reported only in automation mode, and rounding keeps every figure within half a unit of
      its exact value. */
  function Report(b: Breakdown): (m: Metrics)
    ensures Near(m.asIs.totalCost, b.driver.asIsCost, 2)
    ensures b.mode == Automation ==> Near(m.asIs.totalHours, b.driver.asIsHours, 1)
    ensures b.mode == Deflection ==> m.asIs.totalHours == 0.0
    ensures Near(m.toBe.infra, b.infra, 2) && Near(m.toBe.tokens, b.tokens, 2)
    ensures Near(m.toBe.hitl, b.driver.reviewCost, 2) && Near(m.toBe.totalAi, b.operational, 2)
    ensures Near(m.outcome.valueGenerated, b.driver.value, 2) && Near(m.outcome.netSaving, b.saving, 2)
    ensures Near(m.outcome.roi, b.roi, 1) && Near(m.outcome.payback, b.payback, 1)
    ensures Near(m.outcome.hoursFreed, b.driver.hoursFreed, 1)
  {
    Metrics(
      AsIs(Round(b.driver.asIsCost, 2), if b.mode == Automation then Round(b.driver.asIsHours, 1) else 0.0),
      ToBe(Round(b.infra, 2), Round(b.tokens, 2), Round(b.driver.reviewCost, 2), Round(b.operational, 2)),
      Outcome(Round(b.driver.value, 2), Round(b.saving, 2), Round(b.roi, 1), Round(b.payback, 1),
              Round(b.driver.hoursFreed, 1)))
  }

  /** Rounding keeps non-negative costs non-negative and shows the sentinels unchanged. */
  lemma ReportKeepsSignsAndSentinels(b: Breakdown)
    ensures var m := Report(b);
      && (CostsNonNegative(b) ==>
            m.asIs.totalCost >= 0.0 && m.toBe.infra >= 0.0 && m.toBe.tokens >= 0.0
            && m.toBe.hitl >= 0.0 && m.toBe.totalAi >= 0.0)
      && (b.roi == RoiSentinel ==> m.outcome.roi == RoiSentinel)
      && (b.payback == PaybackSentinel ==> m.outcome.payback == PaybackSentinel)
  {
    RoundKeepsSign(b.driver.asIsCost, 2);
    RoundKeepsSign(b.infra, 2);
    RoundKeepsSign(b.tokens, 2);
    RoundKeepsSign(b.driver.reviewCost, 2);
    RoundKeepsSign(b.operational, 2);
    RoundExact(RoiSentinel, 1, 99990);
    RoundExact(PaybackSentinel, 1, 9990);
  }

  /** `calcula_metricas_genai(inputs_bloco_1, inputs_bloco_2, inputs_bloco_3, global_cost_data)`. */
  function Calculate(s: ScenarioInputs, a: ArchitectureInputs, k: RiskInputs, c: CostData): (m: Metrics)
    ensures var b := Evaluate(Normalize(s, a, k, c));
      && Near(m.asIs.totalCost, b.driver.asIsCost, 2)
      && (b.mode == Automation ==> Near(m.asIs.totalHours, b.driver.asIsHours, 1))
      && Near(m.toBe.infra, b.infra, 2) && Near(m.toBe.tokens, b.tokens, 2)
      && Near(m.toBe.hitl, b.driver.reviewCost, 2) && Near(m.toBe.totalAi, b.operational, 2)
      && Near(m.outcome.valueGenerated, b.driver.value, 2) && Near(m.outcome.netSaving, b.saving, 2)
      && Near(m.outcome.roi, b.roi, 1) && Near(m.outcome.payback, b.payback, 1)
      && Near(m.outcome.hoursFreed, b.driver.hoursFreed, 1)
    ensures var b := Evaluate(Normalize(s, a, k, c));
      && (b.roi == RoiSentinel ==> m.outcome.roi == RoiSentinel)
      && (b.payback == PaybackSentinel ==> m.outcome.payback == PaybackSentinel)
    ensures NonNegativeInputs(s, a, k, c) ==>
      m.asIs.totalCost >= 0.0 && m.toBe.infra >= 0.0 && m.toBe.tokens >= 0.0
      && m.toBe.hitl >= 0.0 && m.toBe.totalAi >= 0.0 && m.outcome.payback >= 0.0
    ensures ModeOf(s) == Deflection ==> m.asIs.totalHours == 0.0 && m.toBe.hitl == 0.0
  {
    var p := Normalize(s, a, k, c);
    var b := Evaluate(p);
    RoundKeepsSign(b.payback, 1);
    RoundExact(0.0, 2, 0);
    ReportKeepsSignsAndSentinels(b);
    Report(b)
  }

  /** The result of a calculation is the rounded report of its unrounded figures. */
  lemma CalculateIsReport(s: ScenarioInputs, a: ArchitectureInputs, k: RiskInputs, c: CostData, b: Breakdown)
    requires Evaluate(Normalize(s, a, k, c)) == b
    ensures Calculate(s, a, k, c) == Report(b)
  {
  }

  /** ROI and payback of a whole calculation follow the saving: a positive to-be cost times
      the ROI percent is the saving, and the payback months of a positive saving add up to
      the capex. */
  lemma RoiAndPaybackRules(p: Params)
    ensures var b := Evaluate(p);
      && (b.operational > 0.0 ==> b.roi * b.operational == b.saving * 100.0)
      && (b.operational <= 0.0 ==> b.roi == (if b.saving > 0.0 then RoiSentinel else 0.0))
      && (b.saving > 0.0 ==> b.payback * b.saving == p.capex)
  {
    var b := Evaluate(p);
    RoiAndPaybackOf(b.roi, b.payback, b.saving, b.operational, p.capex);
  }

  lemma RoiAndPaybackOf(roi: real, payback: real, saving: real, cost: real, capex: real)
    requires roi == Roi(saving, cost) && payback == PaybackMonths(capex, saving)
    ensures cost > 0.0 ==> roi * cost == saving * 100.0
    ensures cost <= 0.0 ==> roi == (if saving > 0.0 then RoiSentinel else 0.0)
    ensures saving > 0.0 ==> payback * saving == capex
  {
    if cost > 0.0 {
      RoiScalesSaving(saving, cost);
    }
    if saving > 0.0 {
      PaybackRecoversCapex(capex, saving);
    }
  }

  /** With a positive cost, ROI percent of the cost is the saving. */
  lemma RoiScalesSaving(saving: real, cost: real)
    requires cost > 0.0
    ensures Roi(saving, cost) * cost == saving * 100.0
  {
    QuotientSign(saving, cost);
  }

  /** With a positive saving, the saving accumulated over the payback period is the capex. */
  lemma PaybackRecoversCapex(capex: real, saving: real)
    requires saving > 0.0
    ensures PaybackMonths(capex, saving) * saving == capex
  {
    QuotientSign(capex, saving);
  }

  /* Arithmetic steps the solver does not take on its own. */

  lemma NonNegativeProduct3(x: real, y: real, z: real)
    ensures x >= 0.0 && y >= 0.0 && z >= 0.0 ==> x * y * z >= 0.0
  {
  }

  lemma ProductMonotone(x: real, y: real, z: real)
    ensures x <= y && z >= 0.0 ==> x * z <= y * z
  {
  }

  lemma ScaledWithin(c: real, r: real)
    ensures c >= 0.0 && r <= 1.0 ==> c * r <= c
  {
    if c >= 0.0 && r <= 1.0 {
      ProductMonotone(r, 1.0, c);
    }
  }

  lemma ReviewWithinManual(v: real, share: real, reviewMinutes: real, minutes: real)
    ensures v >= 0.0 && 0.0 <= share <= 1.0 && 0.0 <= reviewMinutes <= minutes ==>
      v * share * reviewMinutes / MinutesPerHour <= v * minutes / MinutesPerHour
  {
    if v >= 0.0 && 0.0 <= share <= 1.0 && 0.0 <= reviewMinutes <= minutes {
      ProductMonotone(share, 1.0, reviewMinutes);
      assert share * reviewMinutes <= minutes;
      ProductMonotone(share * reviewMinutes, minutes, v);
    }
  }

  lemma RoundKeepsSign(x: real, d: nat)
    ensures x >= 0.0 ==> Round(x, d) >= 0.0
  {
    if x >= 0.0 {
      RoundNonNegative(x, d);
    }
  }

  lemma Rearrange(x: real, y: real, z: real)
    ensures x * y * z == x * z * y
  {
  }

  lemma QuotientSign(x: real, y: real)
    requires y > 0.0
    ensures (x / y > 0.0 <==> x > 0.0) && (x / y >= 0.0 <==> x >= 0.0) && x / y * y == x
  {
  }
}

/** Worked scenarios: the form's default inputs run through the calculator against the
    simulated price lookup, and the edge cases of the ROI rule. Each scenario is proved in
    three steps (the inputs read, the unrounded figures, the rounded report) and then
    assembled with `CalculateIsReport`. */
module Scenarios {
  import opened Fields
  import opened Rounding
  import opened Calc

  /** The simulated cost lookup: three models' USD prices and a rate of 6.10 BRL per USD. */
  function SimulatedCostData(): CostData {
    CostData(
      map["gpt-4o" := Price(2.50, 10.00),
          "gpt-4o-mini" := Price(0.15, 0.60),
          "gemini-2.5-flash" := Price(0.075, 0.30)],
      Present(6.10))
  }

  /** The form's defaults for the first group, with the given project type. */
  function DefaultScenario(projectType: string): ScenarioInputs {
    ScenarioInputs(Present(projectType), Present(5000.0), Present(5.0), Present(45.0), Present(25.0))
  }

  function DefaultArchitecture(): ArchitectureInputs {
    ArchitectureInputs(Present(200.0), Present("gemini-2.5-flash"), Present(2000.0), Present(500.0), Present(10000.0))
  }

  function DefaultRisk(): RiskInputs {
    RiskInputs(Present(20.0), Present(1.0), Present(30.0))
  }

  /** 2000 input and 500 output tokens per unit at 0.075 / 0.30 USD per million, 5000 units:
      1.5 USD a month, 9.15 BRL at 6.10 and 9.00 BRL at the 6.0 fallback. */
  lemma TokenCostExample()
    ensures TokenCostBrl(Normalize(DefaultScenario(AutomationType), DefaultArchitecture(), DefaultRisk(),
                                   SimulatedCostData())) == 9.15
    ensures TokenCostBrl(Normalize(DefaultScenario(AutomationType), DefaultArchitecture(), DefaultRisk(),
                                   SimulatedCostData().(usdToBrl := Absent))) == 9.0
  {
  }

  /* ---- Automation with the form's defaults ---- */

  /** Automation with the form's defaults: 416.7 manual hours costing 18,750 BRL; 750 BRL of
      review; 400 hours freed. */
  lemma AutomationDefaults()
    ensures Calculate(DefaultScenario(AutomationType), DefaultArchitecture(), DefaultRisk(), SimulatedCostData())
         == Metrics(AsIs(18750.0, 416.7), ToBe(200.0, 9.15, 750.0, 959.15),
                    Outcome(18750.0, 17790.85, 1854.9, 0.6, 400.0))
  {
    var p := Normalize(DefaultScenario(AutomationType), DefaultArchitecture(), DefaultRisk(), SimulatedCostData());
    AutomationDefaultsParams();
    AutomationDefaultsBreakdown(p);
    CalculateIsReport(DefaultScenario(AutomationType), DefaultArchitecture(), DefaultRisk(), SimulatedCostData(),
                      Evaluate(p));
    AutomationDefaultsReport(Evaluate(p));
  }

  lemma AutomationDefaultsParams()
    ensures Normalize(DefaultScenario(AutomationType), DefaultArchitecture(), DefaultRisk(), SimulatedCostData())
         == Params(Automation, 5000.0, 5.0, 45.0, 25.0, 200.0, Price(0.075, 0.30), 6.10,
                   2000.0, 500.0, 10000.0, 20.0, 1.0, 30.0)
  {
  }

  lemma AutomationDefaultsBreakdown(p: Params)
    requires p == Params(Automation, 5000.0, 5.0, 45.0, 25.0, 200.0, Price(0.075, 0.30), 6.10,
                         2000.0, 500.0, 10000.0, 20.0, 1.0, 30.0)
    ensures Evaluate(p) == Breakdown(Automation, ValueDriver(18750.0, 1250.0 / 3.0, 18750.0, 750.0, 400.0),
                                     200.0, 9.15, 959.15, 17790.85, 35581700.0 / 19183.0, 200000.0 / 355817.0)
  {
    assert TokenCostBrl(p) == 9.15;
    assert AutomationDriver(p) == ValueDriver(18750.0, 1250.0 / 3.0, 18750.0, 750.0, 400.0);
  }

  lemma AutomationDefaultsReport(b: Breakdown)
    requires b == Breakdown(Automation, ValueDriver(18750.0, 1250.0 / 3.0, 18750.0, 750.0, 400.0),
                            200.0, 9.15, 959.15, 17790.85, 35581700.0 / 19183.0, 200000.0 / 355817.0)
    ensures Report(b) == Metrics(AsIs(18750.0, 416.7), ToBe(200.0, 9.15, 750.0, 959.15),
                                 Outcome(18750.0, 17790.85, 1854.9, 0.6, 400.0))
  {
    RoundExact(18750.0, 2, 1875000);
    RoundExact(200.0, 2, 20000);
    RoundExact(9.15, 2, 915);
    RoundExact(750.0, 2, 75000);
    RoundExact(959.15, 2, 95915);
    RoundExact(17790.85, 2, 1779085);
    RoundExact(400.0, 1, 4000);
    RoundToNearest(1250.0 / 3.0, 1, 4167);
    RoundToNearest(35581700.0 / 19183.0, 1, 18549);
    RoundToNearest(200000.0 / 355817.0, 1, 6);
  }

  /* ---- FAQ with the form's defaults ---- */

  /** FAQ with the form's defaults: 1,500 of 5,000 tickets deflected, worth 37,500 BRL, 250 hours. */
  lemma FaqDefaults()
    ensures Calculate(DefaultScenario("faq"), DefaultArchitecture(), DefaultRisk(), SimulatedCostData())
         == Metrics(AsIs(125000.0, 0.0), ToBe(200.0, 9.15, 0.0, 209.15),
                    Outcome(37500.0, 37290.85, 17829.7, 0.3, 250.0))
  {
    var p := Normalize(DefaultScenario("faq"), DefaultArchitecture(), DefaultRisk(), SimulatedCostData());
    FaqDefaultsParams();
    FaqDefaultsBreakdown(p);
    CalculateIsReport(DefaultScenario("faq"), DefaultArchitecture(), DefaultRisk(), SimulatedCostData(),
                      Evaluate(p));
    FaqDefaultsReport(Evaluate(p));
  }

  lemma FaqDefaultsParams()
    ensures Normalize(DefaultScenario("faq"), DefaultArchitecture(), DefaultRisk(), SimulatedCostData())
         == Params(Deflection, 5000.0, 5.0, 45.0, 25.0, 200.0, Price(0.075, 0.30), 6.10,
                   2000.0, 500.0, 10000.0, 20.0, 1.0, 30.0)
  {
  }

  lemma FaqDefaultsBreakdown(p: Params)
    requires p == Params(Deflection, 5000.0, 5.0, 45.0, 25.0, 200.0, Price(0.075, 0.30), 6.10,
                         2000.0, 500.0, 10000.0, 20.0, 1.0, 30.0)
    ensures Evaluate(p) == Breakdown(Deflection, ValueDriver(125000.0, 0.0, 37500.0, 0.0, 250.0),
                                     200.0, 9.15, 209.15, 37290.85, 372908500.0 / 20915.0, 200000.0 / 745817.0)
  {
    assert TokenCostBrl(p) == 9.15;
    assert DeflectionDriver(p) == ValueDriver(125000.0, 0.0, 37500.0, 0.0, 250.0);
  }

  lemma FaqDefaultsReport(b: Breakdown)
    requires b == Breakdown(Deflection, ValueDriver(125000.0, 0.0, 37500.0, 0.0, 250.0),
                            200.0, 9.15, 209.15, 37290.85, 372908500.0 / 20915.0, 200000.0 / 745817.0)
    ensures Report(b) == Metrics(AsIs(125000.0, 0.0), ToBe(200.0, 9.15, 0.0, 209.15),
                                 Outcome(37500.0, 37290.85, 17829.7, 0.3, 250.0))
  {
    RoundExact(125000.0, 2, 12500000);
    RoundExact(200.0, 2, 20000);
    RoundExact(9.15, 2, 915);
    RoundExact(0.0, 2, 0);
    RoundExact(209.15, 2, 20915);
    RoundExact(37500.0, 2, 3750000);
    RoundExact(37290.85, 2, 3729085);
    RoundExact(250.0, 1, 2500);
    RoundToNearest(372908500.0 / 20915.0, 1, 178297);
    RoundToNearest(200000.0 / 745817.0, 1, 3);
  }

  /* ---- A solution that costs nothing ---- */

  function CostFreeScenario(): ScenarioInputs {
    ScenarioInputs(Absent, Present(100.0), Present(3.0), Present(100.0), Absent)
  }

  /** No infrastructure, and a model the price table does not list. */
  function CostFreeArchitecture(): ArchitectureInputs {
    ArchitectureInputs(Absent, Present("local-model"), Present(2000.0), Present(500.0), Present(1000.0))
  }

  /** A solution that costs nothing (no infrastructure, a model the table does not price,
      no review) yet replaces 500 BRL of manual work: ROI is the 9999 sentinel and a
      1,000 BRL capex pays back in 2 months. */
  lemma CostFreeAutomation()
    ensures Calculate(CostFreeScenario(), CostFreeArchitecture(), RiskInputs(Absent, Absent, Absent), SimulatedCostData())
         == Metrics(AsIs(500.0, 5.0), ToBe(0.0, 0.0, 0.0, 0.0), Outcome(500.0, 500.0, RoiSentinel, 2.0, 5.0))
  {
    var p := Normalize(CostFreeScenario(), CostFreeArchitecture(), RiskInputs(Absent, Absent, Absent), SimulatedCostData());
    CostFreeParams();
    CostFreeBreakdown(p);
    CalculateIsReport(CostFreeScenario(), CostFreeArchitecture(), RiskInputs(Absent, Absent, Absent), SimulatedCostData(),
                      Evaluate(p));
    CostFreeReport(Evaluate(p));
  }

  lemma CostFreeParams()
    ensures Normalize(CostFreeScenario(), CostFreeArchitecture(), RiskInputs(Absent, Absent, Absent), SimulatedCostData())
         == Params(Automation, 100.0, 3.0, 100.0, 0.0, 0.0, Price(0.0, 0.0), 6.10,
                   2000.0, 500.0, 1000.0, 0.0, 0.0, 0.0)
  {
  }

  lemma CostFreeBreakdown(p: Params)
    requires p == Params(Automation, 100.0, 3.0, 100.0, 0.0, 0.0, Price(0.0, 0.0), 6.10,
                         2000.0, 500.0, 1000.0, 0.0, 0.0, 0.0)
    ensures Evaluate(p) == Breakdown(Automation, ValueDriver(500.0, 5.0, 500.0, 0.0, 5.0),
                                     0.0, 0.0, 0.0, 500.0, RoiSentinel, 2.0)
  {
    assert TokenCostBrl(p) == 0.0;
    assert AutomationDriver(p) == ValueDriver(500.0, 5.0, 500.0, 0.0, 5.0);
  }

  lemma CostFreeReport(b: Breakdown)
    requires b == Breakdown(Automation, ValueDriver(500.0, 5.0, 500.0, 0.0, 5.0),
                            0.0, 0.0, 0.0, 500.0, RoiSentinel, 2.0)
    ensures Report(b) == Metrics(AsIs(500.0, 5.0), ToBe(0.0, 0.0, 0.0, 0.0), Outcome(500.0, 500.0, RoiSentinel, 2.0, 5.0))
  {
    RoundExact(500.0, 2, 50000);
    RoundExact(5.0, 1, 50);
    RoundExact(0.0, 2, 0);
    RoundExact(2.0, 1, 20);
  }
}

# Mavi.IA economic viability calculator — Dafny model

This project models `calcula_metricas_genai`, the calculation engine of the Mavi.IA
framework. Given three blocks of user inputs (scenario, architecture, risk) and a table of
API prices, it estimates the monthly economics of a generative-AI project:

- the as-is cost and hours of doing the work by hand;
- the to-be cost of the AI solution: fixed infrastructure, tokens, and human review
  ("human in the loop");
- the value generated, the net monthly saving, ROI in percent, payback in months, and the
  hours freed.

The engine has two modes, chosen by `tipo_projeto`:

- **Automation** (`"automacao"`, also the default): the value is the whole manual cost
  eliminated. Human review of a share of the units is charged back.
- **Deflection** (FAQ, any other project type): the value is the number of tickets the AI
  keeps from reaching a human, times the ticket cost. Each ticket deflected counts as
  10 minutes of agent time.

The source is pure code, so the model is pure functions. The model has four modules:

- `Fields` models how a Python dictionary entry is read. An entry is missing, mapped to
  `None`, or mapped to a value. `d.get(k, default)` is `Get`, and `d.get(k, default) or
  default` is `OrElse`: a falsy reading (missing, `None`, `0`) gives the fallback.
- `Rounding` models Python's `round(x, d)` on exact reals. It rounds half to even at `d`
  decimals. It proves the rounding error bound, monotonicity, idempotence, sign
  preservation, and that values with few enough decimals are unchanged.
- `Calc` follows the engine step by step:
  - `Normalize` reads the inputs into `Params`;
  - `TokenCostBrl` computes the token cost;
  - `AutomationDriver` or `DeflectionDriver` computes the value side;
  - `Evaluate` consolidates operational cost, saving, ROI and payback;
  - `Report` rounds the figures into the returned dictionary, written `Metrics`;
  - `Calculate` is the whole function.
- `CalcProperties` proves properties that relate several calls or several inputs. `Scenarios`
  evaluates the calculator on concrete inputs: the UI's default state, priced with the
  agent's simulated price table.

Two consequences of the code are worth stating:

- Reading a present `None` with `.get(key, default)` gives `None`, not the default. So
  `tipo_projeto: None` selects Deflection mode, not Automation. `modelo_llm: None` finds no
  price and costs no tokens.
- 2,000 input and 500 output tokens of gemini-2.5-flash on 5,000 units cost
  (2000 × 0.075 + 500 × 0.30) / 1,000,000 × 5,000 = 1.5 USD. That is 9.0 BRL at the default
  rate of 6.0, or 9.15 BRL at the simulated rate of 6.10. `Scenarios.TokenCostExample`
  proves these figures.

## Model

| member | source | states |
|---|---|---|
| Fields.Get | calc_logic.py:17 | `get` with a default: a missing key gives the default, a key mapped to None gives None, and a present value is returned unchanged |
| Fields.OrElse | calc_logic.py:18 | `get(...) or fallback` on a number: missing, None and 0 all give the fallback, and any other present value is kept |
| Calc.ModeOf | calc_logic.py:43 | the mode is Automation exactly when the project type is missing (default `"automacao"`) or equals `"automacao"`; anything else, None included, is Deflection |
| Calc.PriceOf | calc_logic.py:25-27 | the price used is the table's entry for the chosen model (default gemini-2.5-flash) when the table lists it, and (0, 0) otherwise |
| Calc.ExchangeRate | calc_logic.py:28 | the USD→BRL rate is never 0: it is the given rate unless that is missing, None or 0, in which case it is 6.0 |
| Calc.Normalize | calc_logic.py:17-31 | every input read is a real number (never None); the rate is non-zero; the price comes from the table or is (0, 0); non-negative inputs give non-negative parameters |
| Calc.TokenCostBrl | calc_logic.py:33-35 | token cost in BRL is non-negative for non-negative inputs, and is 0 when the model is unpriced or the volume is 0 |
| Calc.AutomationDriver | calc_logic.py:43-65 | the value generated is the whole as-is cost; as-is hours are volume × minutes / 60; hours freed are as-is hours minus review hours; review cost never exceeds the as-is cost and hours freed stay within [0, as-is hours] when at most 100% of units are reviewed, each for no longer than the manual time |
| Calc.DeflectionDriver | calc_logic.py:70-93 | the value is the as-is ticket cost scaled by the retention rate; there are no review cost and no as-is hours; the value never exceeds the as-is cost when retention is at most 100% |
| Calc.Roi | calc_logic.py:107-112 | ROI is positive exactly when the saving is; with no positive cost it is the 9999 sentinel for a positive saving and 0 otherwise |
| Calc.PaybackMonths | calc_logic.py:114-116 | payback is the 999 sentinel when nothing is saved, and is never negative for a non-negative capex |
| Calc.Evaluate | calc_logic.py:33-116 | the value side is the mode's driver and the tokens are the token cost; the operational cost is infrastructure + tokens + review; saving + operational cost = value generated; ROI is positive exactly when the saving is; no saving means the payback sentinel; non-negative inputs give non-negative costs and payback |
| Calc.Report | calc_logic.py:118-140 | every figure shown is within half a unit of its exact value (2 decimals for money, 1 for hours, ROI and payback); as-is hours are 0 in Deflection mode |
| Calc.ReportKeepsSignsAndSentinels | calc_logic.py:118-140 | rounding keeps non-negative costs non-negative and shows the sentinels 9999 and 999 unchanged |
| Calc.Calculate | calc_logic.py:7-142 | every figure shown is within half a unit of the exact figure the calculation produces (2 decimals for money, 1 for hours, ROI and payback), and the ROI and payback sentinels are shown unchanged; with non-negative inputs every cost and the payback shown are non-negative; in Deflection mode the as-is hours and the review cost shown are 0 |
| Calc.Ratio | calc_logic.py:108-116 | a quotient by a positive number has the numerator's sign, and multiplying back gives the numerator |
| Calc.RoiAndPaybackRules | calc_logic.py:107-116 | ROI × operational cost = saving × 100 when the cost is positive, the sentinel rule otherwise, and payback × saving = capex when the saving is positive |
| Calc.RoiScalesSaving | calc_logic.py:108-109 | ROI times a positive cost recovers 100 × the saving |
| Calc.PaybackRecoversCapex | calc_logic.py:116 | payback months times a positive monthly saving recover the capex |
| Rounding.Round | calc_logic.py:121-136 | `round(x, d)` is within half a unit in the d-th decimal of x |
| Rounding.RoundHasDecimals | calc_logic.py:121-136 | a rounded figure has at most d decimals: times 10^d it is the whole number nearest to x × 10^d, ties to even |
| Rounding.RoundMonotone | calc_logic.py:121-136 | rounding never reverses the order of two figures |
| Rounding.RoundIdempotent | calc_logic.py:121-136 | rounding an already rounded figure changes nothing |
| Rounding.RoundNonNegative | calc_logic.py:121-136 | rounding a non-negative figure gives a non-negative figure |
| Rounding.RoundExact | calc_logic.py:121-136 | a figure with at most d decimals is unchanged by `round(x, d)` |
| Rounding.RoundToNearest | calc_logic.py:121-136 | a figure strictly within half a unit of a d-decimal value rounds to that value |
| CalcProperties.MissingNumbersReadAsZero | calc_logic.py:18-31 | field by field, each numeric input is read as its own value when given and as 0 when missing or None |
| CalcProperties.EmptyInputsGiveZeroBreakdown | calc_logic.py:16-116 | empty inputs and an empty price table give Automation, zero amounts, ROI 0 and payback 999 before rounding |
| CalcProperties.EmptyInputsGiveZeroMetrics | calc_logic.py:7-142 | empty inputs and an empty price table select Automation and give zero amounts, ROI 0 and payback 999 |
| CalcProperties.DefaultProjectTypeIsAutomation | calc_logic.py:17 | a missing project type selects Automation, and a None one selects Deflection |
| CalcProperties.UnknownModelHasNoTokenCost | calc_logic.py:27 | a model that is None or that the table does not list costs no tokens |
| CalcProperties.OnlySelectedPriceMatters | calc_logic.py:27 | two price tables that agree on the selected model's entry, with the same rate, give the same result |
| CalcProperties.AutomationHours | calc_logic.py:51-63 | in Automation, as-is hours are volume × minutes / 60 and cost those hours at the wage; review cost is the review hours at the same wage; hours freed are as-is hours minus review hours; with no review, nothing is charged and every manual hour is freed |
| CalcProperties.DeflectionValue | calc_logic.py:79-93 | in Deflection, the as-is cost is volume × ticket cost; the value is the deflected tickets times the ticket cost; 10 minutes are freed per deflected ticket; with no retention the saving is minus the operational cost; with retention at most 100% the value lies between 0 and the as-is cost |
| CalcProperties.AutomationIgnoresFaqInputs | calc_logic.py:43-68 | ticket cost and retention rate do not affect an Automation result |
| CalcProperties.FaqIgnoresAutomationInputs | calc_logic.py:70-97 | manual minutes, wage and review inputs do not affect a Deflection result |
| CalcProperties.SavingIsLinearInVolume | calc_logic.py:102-105 | the saving is volume × unit margin − infrastructure, in both modes |
| CalcProperties.BreakEvenVolume | calc_logic.py:102-105 | the saving and the ROI are positive exactly when volume × per-unit margin exceeds the fixed infrastructure cost |
| CalcProperties.SavingGrowsWithVolume | calc_logic.py:102-105 | with a non-negative unit margin, more volume never saves less |
| CalcProperties.MoreReviewSavesLess | calc_logic.py:55-63 | in Automation, a higher review rate never increases the saving |
| CalcProperties.MoreRetentionSavesMore | calc_logic.py:75-83 | in Deflection, a higher retention rate never decreases the saving |
| CalcProperties.CostFreeSolutionHitsRoiSentinel | calc_logic.py:108-116 | zero operational cost with a positive value gives ROI 9999, and the payback is capex over the value |
| CalcProperties.NoSavingNoPayback | calc_logic.py:108-116 | no positive saving means payback 999 and no positive ROI |
| Scenarios.TokenCostExample | calc_logic.py:33-35 | 2,000 + 500 tokens on gemini-2.5-flash for 5,000 units cost 9.15 BRL at 6.10 and 9.0 BRL at the default rate |
| Scenarios.AutomationDefaults | app_streamlit.py:14-36 | the UI's default Automation scenario, priced with the agent's simulated table and 6.10 rate (langchain_agent.py:57-65), gives as-is 18,750 BRL / 416.7 h, to-be 959.15 BRL, saving 17,790.85 BRL, ROI 1854.9%, payback 0.6 months and 400 hours freed |
| Scenarios.FaqDefaults | app_streamlit.py:14-36 | the same defaults in FAQ mode, with the same prices and rate (langchain_agent.py:57-65), give as-is 125,000 BRL, to-be 209.15 BRL, value 37,500 BRL, saving 37,290.85 BRL, ROI 17829.7%, payback 0.3 months and 250 hours avoided |
| Scenarios.CostFreeAutomation | calc_logic.py:108-116 | a free solution saving 500 BRL shows ROI 9999 and pays back a 1,000 BRL capex in 2 months |

## Left out

- The labels `label_valor` and `label_kpi_horas` and the `detalhe_humano` text are not modelled. They are fixed strings or formatted display text and carry no figures.
- Binary floating point is not modelled. Amounts are exact reals, and `round` rounds exact ties half to even. Python rounds the nearest binary double, so a few figures that are ties in decimal may round the other way.
- Volumes and token counts are typed as integers by the extraction schema. The model reads them as reals, which admits every integer input.
- Non-numeric values in numeric fields are not modelled (strings, booleans, other types and their truthiness). The model reads each entry as missing, None or a number.
- A price table without the `"CUSTOS_API_USD"` key raises `KeyError`; this is not modelled. Neither is a price entry whose `"input"` or `"output"` is missing or None. The model's price table always exists and maps to two numbers.
- Calc.TokenCostBrl: proves sign and zero cases only. Its exact value is the product formula, which `CalcProperties.UnitTokenCostBrl` and `SavingIsLinearInVolume` relate to the saving.
- The Streamlit interface (app_streamlit.py), the LLM extraction agent, the prompt formatting and config_mavi.py are outside the engine and are not part of this model. The agent's simulated price table and the UI's default inputs appear only as the concrete data of `Scenarios`.

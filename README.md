# Pump/motor condition monitoring: analysis and decision engine

This project models the analysis-and-decision core of a condition-monitoring
tool for a motor-driven pump. It has three parts:

- **Six classifiers** (`analyzers.dfy`, module `Analyzers`). Each reduces
  measurements to a discrete status or to a few fault codes:
  - the ISO 10816-3 velocity limit and the three-band vibration severity;
  - bearing condition from acceleration;
  - structural looseness from displacement against velocity;
  - thermal state;
  - hydraulic head/flow deviation from design;
  - spectral root cause from peak orders.
- **The decision engine** (`decision_engine.dfy`, module `DecisionEngine`).
  It is an ordered rule cascade over the six results:
  - bearing damage suppresses lubrication;
  - at most one structural entry;
  - unbalance and misalignment entries;
  - one entry per LOW_FLOW, HIGH_FLOW or LOW_HEAD issue, none for HIGH_HEAD,
    in list order;
  - a high-vibration fallback when nothing else fired;
  - a healthy default when the list is still empty.
- **One diagnosis request** (`inspection.dfy`, module `Inspection`). It wires
  the classifiers and the engine together the way the mechanical inspection
  page calls them.

All measurements and constants are exact `real` values. Statuses and fault
codes are enumerations. A recommendation is a category; its display text
belongs to the rendering layer. In the engine's context, each status is an
`Option`. `None` stands for a missing key or a string the engine does not
recognise, and it matches no rule.

The imperative parts of the program are methods. Each method is proved equal
to a specification function:

- the hydraulic classifier appends to a list;
- the spectral classifier loops over the peaks and then deduplicates;
- the engine accumulates its list rule by rule, with a loop over the
  hydraulic issues.

The properties are proved as lemmas about those functions. The engine is
deterministic: `GenerateFullDiagnosis` returns `Diagnosis(ctx)`, a function
of the context alone. So identical contexts give identical, identically
ordered lists.

The hydraulic entries follow the list order of `hyd_issues`
(modules/decision_engine.py:39-45), not a fixed LOW_FLOW, HIGH_FLOW,
LOW_HEAD order. The classifier reports the head code first, so with its
output the pump-wear entry comes before any flow entry
(`PumpWearBeforeFlowAdvice`). The issues are an ordered list and are kept as
a `seq`.

## Model

| member | source | states |
|---|---|---|
| `Analyzers.IsoLimit` | modules/analyzers.py:5-9 | the limit is always 4.50, 7.10 or 11.0 mm/s, hence strictly positive |
| `Analyzers.IsoLimitTable` | modules/analyzers.py:7-9 | below 15 kW: 4.50 for both foundations; 15-300 kW inclusive: 7.10 flexible, 4.50 rigid; above 300 kW: 11.0 flexible, 7.10 rigid |
| `Analyzers.IsoLimitFlexibleAtLeastRigid` | modules/analyzers.py:7-9 | at fixed power the flexible-foundation limit is at least the rigid one |
| `Analyzers.IsoLimitMonotone` | modules/analyzers.py:7-9 | at a fixed foundation the limit is non-decreasing in power |
| `Analyzers.CheckSeverity` | modules/analyzers.py:12-16 | DANGER iff value > limit; WARNING iff 0.6·limit < value ≤ limit; GOOD iff value is at most both |
| `Analyzers.SeverityBoundaries` | modules/analyzers.py:14-16 | for a non-negative limit, GOOD iff value ≤ 0.6·limit; value = 0.6·limit is GOOD; value = limit > 0 is WARNING, not DANGER |
| `Analyzers.SeverityMonotone` | modules/analyzers.py:12-16 | a larger reading never gets a less severe status |
| `Analyzers.BearingAnalyze` | modules/analyzers.py:20-24 | DAMAGED iff accel > 2.0 g; WARNING iff 1.0 < accel ≤ 2.0; GOOD iff accel ≤ 1.0 |
| `Analyzers.BearingMonotone` | modules/analyzers.py:20-24 | bearing status is monotone in acceleration |
| `Analyzers.StructuralAnalyze` | modules/analyzers.py:28-34 | RIGID iff disp ≤ 100 µm, whatever the velocity; LOOSENESS_ONLY iff disp > 100 and vel < limit; STRUCTURAL_DAMAGE iff disp > 100 and vel ≥ limit |
| `Analyzers.StructuralMonotone` | modules/analyzers.py:31-34 | at fixed displacement a faster reading never lowers the status, and velocity never changes whether the result is RIGID |
| `Analyzers.ThermalAnalyze` | modules/analyzers.py:38-42 | OVERHEAT iff temp > 80; WARM iff 60 < temp ≤ 80; NORMAL iff temp ≤ 60 |
| `Analyzers.ThermalMonotone` | modules/analyzers.py:38-42 | thermal status is monotone in temperature |
| `Analyzers.HydraulicIssues` | modules/analyzers.py:48-63 | at most two codes, no duplicates, at most one head code and one flow code, any head code before any flow code |
| `Analyzers.HydraulicIssuesCodes` | modules/analyzers.py:50-61 | LOW_HEAD iff design head > 0 and head ratio < 75; HIGH_HEAD iff design head > 0 and ratio > 110; LOW_FLOW iff both flows > 0 and flow ratio < 60; HIGH_FLOW iff both flows > 0 and ratio > 120; head = (dis − suc)·10.2/0.85 |
| `Analyzers.HydraulicExample` | modules/analyzers.py:50-61 | suction 0.5, discharge 4.0 gives a 42.0 m head; with design head 50 and flow 30 of 100 the result is exactly [LOW_FLOW] |
| `Analyzers.HydraulicAnalyze` | modules/analyzers.py:46-63 | the append-by-append classifier returns exactly the head-then-flow list of `HydraulicIssues` |
| `Analyzers.BandFault` | modules/analyzers.py:73-77 | an order maps to UNBALANCE iff in [0.8,1.2], MISALIGNMENT iff in [1.8,2.2], LOOSENESS iff in [2.8,3.2], BEARING_FREQ iff > 3.5, and to nothing exactly in the gaps |
| `Analyzers.FaultsOfMembers` | modules/analyzers.py:71-78 | a code is in the deduplicated result iff some peak's order falls in its band |
| `Analyzers.SpectralFaults` | modules/analyzers.py:69 | a zero running speed or an empty peak list gives no faults |
| `Analyzers.SpectralFaultsBands` | modules/analyzers.py:67-78 | each of the four codes is present iff rpm ≠ 0 and some peak's order (freq ÷ rpm/60) lies in that code's band |
| `Analyzers.GapPeakAddsNothing` | modules/analyzers.py:73-77 | adding a peak whose order lies between bands leaves the result unchanged |
| `Analyzers.SpectralExample` | modules/analyzers.py:70-78 | 3000 rpm with peaks at 50, 100 and 200 Hz gives {UNBALANCE, MISALIGNMENT, BEARING_FREQ} |
| `Analyzers.SpectrumAnalyze` | modules/analyzers.py:67-78 | the loop over peaks, followed by deduplication, yields exactly the set `SpectralFaults` describes |
| `DecisionEngine.GenerateFullDiagnosis` | modules/decision_engine.py:3-54 | the rule-by-rule accumulation returns the cascade `Diagnosis`: bearing/lubrication ++ structural ++ spectral ++ hydraulic, else the fallback, else healthy |
| `DecisionEngine.AppendHydraulicRecs` | modules/decision_engine.py:39-45 | the loop over the hydraulic issues extends the list by the per-issue entries, in list order |
| `DecisionEngine.HydraulicRecsAppend` | modules/decision_engine.py:39-45 | the hydraulic section distributes over concatenation: each issue contributes its own entries in list order |
| `DecisionEngine.HydraulicRecsCount` | modules/decision_engine.py:39-45 | exactly one entry per LOW_FLOW, HIGH_FLOW or LOW_HEAD element, none for HIGH_HEAD |
| `DecisionEngine.HydraulicRecsMembers` | modules/decision_engine.py:39-45 | the section holds only hydraulic advice; the low-flow, high-flow and pump-wear entries appear iff LOW_FLOW, HIGH_FLOW and LOW_HEAD, respectively, are in the list |
| `DecisionEngine.PumpWearBeforeFlowAdvice` | modules/decision_engine.py:39-45 | with classifier output the section has at most two entries and the pump-wear entry precedes any flow entry |
| `DecisionEngine.HealthyExactly` | modules/decision_engine.py:48-54 | the result is never empty; it is exactly [healthy] iff rules 1-4 emitted nothing and severity is not DANGER; healthy never appears with another entry |
| `DecisionEngine.FallbackExactly` | modules/decision_engine.py:48-49 | high vibration appears iff severity is DANGER and no rule fired, and then it is the whole result |
| `DecisionEngine.BearingLubricationExclusive` | modules/decision_engine.py:21-24 | bearing-critical iff DAMAGED; lubrication iff OVERHEAT with bearing GOOD; never both |
| `DecisionEngine.StructuralEntry` | modules/decision_engine.py:27-30 | foundation entry iff LOOSENESS_ONLY, structural-danger entry iff STRUCTURAL_DAMAGE, never two structural entries |
| `DecisionEngine.SpectralEntries` | modules/decision_engine.py:33-36 | unbalance entry iff UNBALANCE present, misalignment entry iff MISALIGNMENT present, unbalance first; LOOSENESS and BEARING_FREQ change nothing |
| `DecisionEngine.HydraulicEntries` | modules/decision_engine.py:39-45 | the whole result holds the low-flow, high-flow and pump-wear entries iff the matching issue is present |
| `DecisionEngine.DiagnosisLength` | modules/decision_engine.py:20-45 | with at most two hydraulic issues the result has at most six entries |
| `DecisionEngine.DamagedOverheatExample` | modules/decision_engine.py:21-24 | DAMAGED bearing with OVERHEAT and nothing else gives exactly [bearing-critical] |
| `DecisionEngine.HealthyExamples` | modules/decision_engine.py:11-52 | an all-good context, and a context with every key missing, each give exactly [healthy] |
| `Inspection.Diagnose` | modules/inspection/mechanical.py:59-77 | for a request run through all six classifiers and the engine, the result has 1 to 6 entries and healthy only alone |
| `Inspection.RunDiagnosis` | modules/inspection/mechanical.py:59-77 | calling the classifier methods one by one and then the engine gives `Diagnose` |
| `Inspection.DangerNeverHealthy` | modules/inspection/mechanical.py:59-77 | a velocity above the ISO limit is never reported healthy |
| `Inspection.FallbackMeansRigid` | modules/inspection/mechanical.py:59-77 | the high-vibration fallback implies velocity above the limit, displacement ≤ 100 µm, accel ≤ 2 g, no unbalance or misalignment, and every hydraulic issue is HIGH_HEAD |
| `Inspection.FoundationIssueBelowLimit` | modules/inspection/mechanical.py:59-77 | foundation entry iff disp > 100 and velocity below the limit, so never with DANGER severity |
| `Inspection.BearingAboveTwoG` | modules/inspection/mechanical.py:59-77 | bearing-critical iff accel > 2 g; lubrication iff temp > 80 and accel ≤ 1 g |

## Left out

- Display text: the recommendation strings (emoji, Indonesian text, Markdown) are display content. They are modelled as categories of `Recommendation`. The lubrication text at modules/decision_engine.py:24 says ">60°C" while the lubrication rule needs OVERHEAT (> 80). This is text only and has no effect on behaviour.
- Floating point: measurements are exact reals. IEEE rounding at the 0.6·limit boundary and at the ratio boundaries is not modelled.
- Spectral result order: `list(set(faults))` returns an unspecified order. The model returns a `set`, and the engine only tests membership.
- The `amp` field of a peak is never read, so `Peak` holds only the frequency.
- The filter at modules/inspection/mechanical.py:51 keeps only peaks with frequency > 0. `Request.peaks` is taken as already filtered, and no contract depends on it.
- Unknown entries in `hyd_issues`: the model's list holds only the four issue codes. An unknown string would match no rule, exactly as HIGH_HEAD matches none.
- Streamlit: main.py, and the widgets, metrics and rendering of modules/inspection/mechanical.py (including the styling that looks for the word "SEHAT" in the text), are UI. The `Healthy` category is what a renderer should test instead.
- Standards: no claim of conformance to ISO 10816-3 or API 610 beyond the constants the code uses.

/**
 * The decision engine: an ordered rule cascade over the six classifier
 * results. Each rule appends zero or more recommendations; the fallback fires
 * only when nothing else did, and an empty result becomes "healthy".
 */
module DecisionEngine {
  import opened Optional
  import opened Analyzers

  /** Recommendation categories, in the order the cascade can emit them.
      The guidance text shown to the operator is attached to each category
      by the display layer. */
  datatype Recommendation =
    | BearingCritical      // stop and replace the bearing
    | Lubrication          // dry grease: regrease
    | FoundationIssue      // check anchor bolts and frame
    | StructuralDanger     // vibration is shaking the foundation
    | UnbalanceAdvice      // clean the impeller, balance in situ
    | MisalignmentAdvice   // check soft foot, laser-align the shafts
    | LowFlowAdvice        // open the discharge valve slowly
    | HighFlowAdvice       // throttle the discharge valve
    | PumpWear             // check wear-ring and impeller clearance
    | HighVibration        // generic inspection of bolts and alignment
    | Healthy              // normal operation
  {
    predicate IsStructural() { FoundationIssue? || StructuralDanger? }
    predicate IsHydraulic() { LowFlowAdvice? || HighFlowAdvice? || PumpWear? }
  }

  /** The diagnostic context. A status that is missing, or holds a value
      the engine does not know, is None and matches no rule. */
  datatype Context = Context(
    isoStatus: Option<Severity>,
    bearingStatus: Option<BearingStatus>,
    structStatus: Option<StructStatus>,
    thermStatus: Option<ThermStatus>,
    hydIssues: seq<HydIssue>,
    specFaults: set<SpecFault>)

  // ---------------------------------------------------------------------
  // The rules, section by section
  // ---------------------------------------------------------------------

  /** Rule 1: a damaged bearing suppresses the lubrication rule, which needs
      an overheated machine with a good bearing. */
  function BearingThermalRecs(bearing: Option<BearingStatus>, therm: Option<ThermStatus>): seq<Recommendation> {
    if bearing == Some(Damaged) then [BearingCritical]
    else if therm == Some(Overheat) && bearing == Some(BearingGood) then [Lubrication]
    else []
  }

  /** Rule 2: looseness or structural damage. */
  function StructuralRecs(status: Option<StructStatus>): seq<Recommendation> {
    if status == Some(LoosenessOnly) then [FoundationIssue]
    else if status == Some(StructuralDamage) then [StructuralDanger]
    else []
  }

  /** Rule 3: spectral root causes with a mapped recommendation. */
  function SpectralRecs(faults: set<SpecFault>): seq<Recommendation> {
    (if Unbalance in faults then [UnbalanceAdvice] else [])
    + (if Misalignment in faults then [MisalignmentAdvice] else [])
  }

  /** Rule 4, for one hydraulic issue. */
  function HydraulicAdvice(issue: HydIssue): seq<Recommendation> {
    match issue
    case LowFlow => [LowFlowAdvice]
    case HighFlow => [HighFlowAdvice]
    case LowHead => [PumpWear]
    case HighHead => []
  }

  /** Rule 4, over the issues in list order. */
  function HydraulicRecs(issues: seq<HydIssue>): seq<Recommendation> {
    if |issues| == 0 then []
    else HydraulicRecs(issues[..|issues| - 1]) + HydraulicAdvice(issues[|issues| - 1])
  }

  /** Everything rules 1 to 4 emit, in priority order. */
  function RuleRecs(ctx: Context): seq<Recommendation> {
    BearingThermalRecs(ctx.bearingStatus, ctx.thermStatus)
    + StructuralRecs(ctx.structStatus)
    + SpectralRecs(ctx.specFaults)
    + HydraulicRecs(ctx.hydIssues)
  }

  /** The engine's result: the rules' output, else the high-vibration
      fallback, else the healthy default. */
  function Diagnosis(ctx: Context): seq<Recommendation> {
    var recs := RuleRecs(ctx);
    if recs != [] then recs
    else if ctx.isoStatus == Some(Danger) then [HighVibration]
    else [Healthy]
  }

  /** The engine as one list extended rule by rule. */
  method GenerateFullDiagnosis(ctx: Context) returns (recs: seq<Recommendation>)
    ensures recs == Diagnosis(ctx)
  {
    recs := [];

    if ctx.bearingStatus == Some(Damaged) {
      recs := recs + [BearingCritical];
    } else if ctx.thermStatus == Some(Overheat) && ctx.bearingStatus == Some(BearingGood) {
      recs := recs + [Lubrication];
    }
    assert recs == BearingThermalRecs(ctx.bearingStatus, ctx.thermStatus);

    if ctx.structStatus == Some(LoosenessOnly) {
      recs := recs + [FoundationIssue];
    } else if ctx.structStatus == Some(StructuralDamage) {
      recs := recs + [StructuralDanger];
    }
    assert recs == BearingThermalRecs(ctx.bearingStatus, ctx.thermStatus) + StructuralRecs(ctx.structStatus);

    if Unbalance in ctx.specFaults {
      recs := recs + [UnbalanceAdvice];
    }
    if Misalignment in ctx.specFaults {
      recs := recs + [MisalignmentAdvice];
    }

    assert recs == BearingThermalRecs(ctx.bearingStatus, ctx.thermStatus)
      + StructuralRecs(ctx.structStatus) + SpectralRecs(ctx.specFaults);
    recs := AppendHydraulicRecs(recs, ctx.hydIssues);
    assert recs == RuleRecs(ctx);

    if ctx.isoStatus == Some(Danger) && recs == [] {
      recs := recs + [HighVibration];
    }
    if recs == [] {
      return [Healthy];
    }
  }

  /** The hydraulic loop of the engine: extends the list with one entry
      per LOW_FLOW, HIGH_FLOW or LOW_HEAD issue, none for HIGH_HEAD, in
      list order. */
  method AppendHydraulicRecs(recs0: seq<Recommendation>, issues: seq<HydIssue>) returns (recs: seq<Recommendation>)
    ensures recs == recs0 + HydraulicRecs(issues)
  {
    recs := recs0;
    for k := 0 to |issues|
      invariant recs == recs0 + HydraulicRecs(issues[..k])
    {
      var issue := issues[k];
      if issue == LowFlow {
        recs := recs + [LowFlowAdvice];
      }
      if issue == HighFlow {
        recs := recs + [HighFlowAdvice];
      }
      if issue == LowHead {
        recs := recs + [PumpWear];
      }
      assert issues[..k + 1][..k] == issues[..k];
    }
    assert issues[..|issues|] == issues;
  }

  // ---------------------------------------------------------------------
  // Hydraulic section
  // ---------------------------------------------------------------------

  /** The hydraulic section distributes over concatenation: one entry per
      LOW_FLOW, HIGH_FLOW or LOW_HEAD issue, none for HIGH_HEAD, in list
      order, and nothing carried over between issues. */
  lemma {:induction false} HydraulicRecsAppend(a: seq<HydIssue>, b: seq<HydIssue>)
    ensures HydraulicRecs(a + b) == HydraulicRecs(a) + HydraulicRecs(b)
    decreases |b|
  {
    if |b| == 0 {
      assert a + b == a;
    } else {
      var b' := b[..|b| - 1];
      assert (a + b)[..|a + b| - 1] == a + b';
      assert (a + b)[|a + b| - 1] == b[|b| - 1];
      HydraulicRecsAppend(a, b');
    }
  }

  /** Counted per issue: every LOW_FLOW, HIGH_FLOW and LOW_HEAD gives one
      entry, and HIGH_HEAD gives none. */
  lemma {:induction false} HydraulicRecsCount(issues: seq<HydIssue>)
    ensures |HydraulicRecs(issues)| == |issues| - multiset(issues)[HighHead]
    ensures |HydraulicRecs(issues)| <= |issues|
  {
    if |issues| > 0 {
      var init := issues[..|issues| - 1];
      assert issues == init + [issues[|issues| - 1]];
      HydraulicRecsCount(init);
    }
  }

  /** Which entries the hydraulic section holds: only hydraulic advice, and
      each one exactly when its issue is in the list. */
  lemma {:induction false} HydraulicRecsMembers(issues: seq<HydIssue>)
    ensures forall r :: r in HydraulicRecs(issues) ==> r.IsHydraulic()
    ensures LowFlowAdvice in HydraulicRecs(issues) <==> LowFlow in issues
    ensures HighFlowAdvice in HydraulicRecs(issues) <==> HighFlow in issues
    ensures PumpWear in HydraulicRecs(issues) <==> LowHead in issues
  {
    if |issues| > 0 {
      var init := issues[..|issues| - 1];
      assert issues == init + [issues[|issues| - 1]];
      HydraulicRecsMembers(init);
    }
  }

  /** A list of one issue gives that issue's advice. */
  lemma HydraulicRecsSingle(issue: HydIssue)
    ensures HydraulicRecs([issue]) == HydraulicAdvice(issue)
  {
    assert [issue][..0] == [];
  }

  /** With the classifier's output the pump-wear entry comes before any
      flow entry, since the classifier reports head before flow. */
  lemma PumpWearBeforeFlowAdvice(suc: real, dis: real, designHead: real, actFlow: real, designFlow: real)
    ensures var recs := HydraulicRecs(HydraulicIssues(suc, dis, designHead, actFlow, designFlow));
      && |recs| <= 2
      && forall i, j ::
           (0 <= i < |recs| && 0 <= j < |recs| && recs[i] == PumpWear
            && (recs[j] == LowFlowAdvice || recs[j] == HighFlowAdvice)) ==> i < j
  {
    var head := HeadCheck(ActualHead(suc, dis), designHead);
    var flow := FlowCheck(actFlow, designFlow);
    HydraulicRecsAppend(head, flow);
    var hr := HydraulicRecs(head);
    var fr := HydraulicRecs(flow);
    HydraulicRecsSingle(LowHead);
    HydraulicRecsSingle(HighHead);
    HydraulicRecsSingle(LowFlow);
    HydraulicRecsSingle(HighFlow);
    assert hr == [] || hr == [PumpWear];
    assert fr == [] || fr == [LowFlowAdvice] || fr == [HighFlowAdvice];
    var recs := hr + fr;
    forall i, j | 0 <= i < |recs| && 0 <= j < |recs| && recs[i] == PumpWear
        && (recs[j] == LowFlowAdvice || recs[j] == HighFlowAdvice)
      ensures i < j
    {
      assert i < |hr|;
      assert j >= |hr|;
    }
  }

  // ---------------------------------------------------------------------
  // Properties of the whole cascade
  // ---------------------------------------------------------------------

  /** The result is never empty; it is the single healthy entry exactly when
      no rule fired and the severity is not DANGER, and the healthy entry
      never shares the list with another. */
  lemma HealthyExactly(ctx: Context)
    ensures |Diagnosis(ctx)| >= 1
    ensures Diagnosis(ctx) == [Healthy] <==> RuleRecs(ctx) == [] && ctx.isoStatus != Some(Danger)
    ensures Healthy in Diagnosis(ctx) ==> Diagnosis(ctx) == [Healthy]
  {
    HydraulicRecsMembers(ctx.hydIssues);
    assert Healthy !in HydraulicRecs(ctx.hydIssues);
    assert Healthy !in RuleRecs(ctx);
  }

  /** The high-vibration fallback appears exactly when the severity is
      DANGER and no rule fired, and then it is the whole result. */
  lemma FallbackExactly(ctx: Context)
    ensures HighVibration in Diagnosis(ctx) <==> ctx.isoStatus == Some(Danger) && RuleRecs(ctx) == []
    ensures HighVibration in Diagnosis(ctx) ==> Diagnosis(ctx) == [HighVibration]
  {
    HydraulicRecsMembers(ctx.hydIssues);
    assert HighVibration !in HydraulicRecs(ctx.hydIssues);
  }

  /** Bearing damage and lubrication exclude each other; lubrication needs
      an overheated machine whose bearing is GOOD. */
  lemma BearingLubricationExclusive(ctx: Context)
    ensures BearingCritical in Diagnosis(ctx) <==> ctx.bearingStatus == Some(Damaged)
    ensures Lubrication in Diagnosis(ctx) <==>
      ctx.thermStatus == Some(Overheat) && ctx.bearingStatus == Some(BearingGood)
    ensures !(BearingCritical in Diagnosis(ctx) && Lubrication in Diagnosis(ctx))
  {
    HydraulicRecsMembers(ctx.hydIssues);
    assert BearingCritical !in HydraulicRecs(ctx.hydIssues);
    assert Lubrication !in HydraulicRecs(ctx.hydIssues);
  }

  /** At most one structural entry, chosen by the structural status. */
  lemma StructuralEntry(ctx: Context)
    ensures FoundationIssue in Diagnosis(ctx) <==> ctx.structStatus == Some(LoosenessOnly)
    ensures StructuralDanger in Diagnosis(ctx) <==> ctx.structStatus == Some(StructuralDamage)
    ensures forall i, j :: 0 <= i < j < |Diagnosis(ctx)| ==>
      !(Diagnosis(ctx)[i].IsStructural() && Diagnosis(ctx)[j].IsStructural())
  {
    var bt := BearingThermalRecs(ctx.bearingStatus, ctx.thermStatus);
    var st := StructuralRecs(ctx.structStatus);
    var sp := SpectralRecs(ctx.specFaults);
    var hy := HydraulicRecs(ctx.hydIssues);
    HydraulicRecsMembers(ctx.hydIssues);
    assert FoundationIssue !in hy && StructuralDanger !in hy;
    assert Diagnosis(ctx) == bt + st + sp + hy || Diagnosis(ctx) == [HighVibration] || Diagnosis(ctx) == [Healthy];
  }

  /** The spectral entries: UNBALANCE and MISALIGNMENT each give one, in
      that order; LOOSENESS and BEARING_FREQ give none. */
  lemma SpectralEntries(ctx: Context)
    ensures UnbalanceAdvice in Diagnosis(ctx) <==> Unbalance in ctx.specFaults
    ensures MisalignmentAdvice in Diagnosis(ctx) <==> Misalignment in ctx.specFaults
    ensures Unbalance in ctx.specFaults && Misalignment in ctx.specFaults ==>
      SpectralRecs(ctx.specFaults) == [UnbalanceAdvice, MisalignmentAdvice]
    ensures SpectralRecs(ctx.specFaults) == SpectralRecs(ctx.specFaults - {Looseness, BearingFreq})
  {
    HydraulicRecsMembers(ctx.hydIssues);
    assert UnbalanceAdvice !in HydraulicRecs(ctx.hydIssues);
    assert MisalignmentAdvice !in HydraulicRecs(ctx.hydIssues);
  }

  /** The hydraulic entries: one per LOW_FLOW, HIGH_FLOW or LOW_HEAD issue. */
  lemma HydraulicEntries(ctx: Context)
    ensures LowFlowAdvice in Diagnosis(ctx) <==> LowFlow in ctx.hydIssues
    ensures HighFlowAdvice in Diagnosis(ctx) <==> HighFlow in ctx.hydIssues
    ensures PumpWear in Diagnosis(ctx) <==> LowHead in ctx.hydIssues
  {
    HydraulicRecsMembers(ctx.hydIssues);
  }

  /** With at most two hydraulic issues (as the classifier reports), the
      result has at most six entries. */
  lemma DiagnosisLength(ctx: Context)
    requires |ctx.hydIssues| <= 2
    ensures |Diagnosis(ctx)| <= 6
  {
    HydraulicRecsCount(ctx.hydIssues);
  }

  /** A damaged bearing with an overheated machine and nothing else gives
      only the bearing-critical entry. */
  lemma DamagedOverheatExample()
    ensures Diagnosis(Context(Some(Good), Some(Damaged), Some(Rigid), Some(Overheat), [], {}))
      == [BearingCritical]
  {
  }

  /** All statuses healthy and no issues, or a context with every key
      missing, gives exactly the healthy entry. */
  lemma HealthyExamples()
    ensures Diagnosis(Context(Some(Good), Some(BearingGood), Some(Rigid), Some(Normal), [], {})) == [Healthy]
    ensures Diagnosis(Context(None, None, None, None, [], {})) == [Healthy]
  {
  }
}

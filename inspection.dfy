/**
 * One diagnosis request from the mechanical inspection page: the ISO limit
 * from the equipment data, the six classifiers, then the decision engine.
 */
module Inspection {
  import opened Optional
  import opened Analyzers
  import opened DecisionEngine

  /** The inputs the inspection page gathers for one diagnosis. Peaks are
      assumed to hold only frequencies the page accepted (strictly
      positive); nothing here depends on it. */
  datatype Request = Request(
    powerKw: real,
    rpm: real,
    isFlexible: bool,
    designHead: real,
    designFlow: real,
    velMax: real,
    accMax: real,
    dispMax: real,
    tempMax: real,
    suc: real,
    dis: real,
    flow: real,
    peaks: seq<Peak>)

  /** The context handed to the engine: every classifier result is present. */
  function BuildContext(q: Request): Context {
    var limit := IsoLimit(q.powerKw, q.isFlexible);
    Context(
      Some(CheckSeverity(q.velMax, limit)),
      Some(BearingAnalyze(q.accMax)),
      Some(StructuralAnalyze(q.dispMax, q.velMax, limit)),
      Some(ThermalAnalyze(q.tempMax)),
      HydraulicIssues(q.suc, q.dis, q.designHead, q.flow, q.designFlow),
      SpectralFaults(q.rpm, q.peaks))
  }

  /** The recommendations for one request: between one and six entries, and
      "healthy" only on its own. */
  function Diagnose(q: Request): (recs: seq<Recommendation>)
    ensures 1 <= |recs| <= 6
    ensures Healthy in recs ==> recs == [Healthy]
  {
    var ctx := BuildContext(q);
    HealthyExactly(ctx);
    DiagnosisLength(ctx);
    Diagnosis(ctx)
  }

  /** The page's sequence of calls, classifier by classifier, then the engine. */
  method RunDiagnosis(q: Request) returns (recs: seq<Recommendation>)
    ensures recs == Diagnose(q)
  {
    var limitIso := IsoLimit(q.powerKw, q.isFlexible);
    var resIso := CheckSeverity(q.velMax, limitIso);
    var resBearing := BearingAnalyze(q.accMax);
    var resStruct := StructuralAnalyze(q.dispMax, q.velMax, limitIso);
    var resTherm := ThermalAnalyze(q.tempMax);
    var resHyd := HydraulicAnalyze(q.suc, q.dis, q.designHead, q.flow, q.designFlow);
    var resSpec := SpectrumAnalyze(q.rpm, q.peaks);
    var context := Context(Some(resIso), Some(resBearing), Some(resStruct), Some(resTherm), resHyd, resSpec);
    recs := GenerateFullDiagnosis(context);
  }

  /** A reading above the ISO limit is never reported healthy. */
  lemma DangerNeverHealthy(q: Request)
    requires q.velMax > IsoLimit(q.powerKw, q.isFlexible)
    ensures Healthy !in Diagnose(q)
  {
    HealthyExactly(BuildContext(q));
  }

  /** The generic high-vibration entry only stands in for an otherwise
      silent diagnosis: the velocity is above the limit, the displacement is
      at most 100 micrometres (a displaced machine above the limit would
      already be reported as structural danger), the bearing is not
      damaged, neither unbalance nor misalignment was found, and every
      hydraulic issue is HIGH_HEAD (the one issue without an entry). */
  lemma FallbackMeansRigid(q: Request)
    ensures HighVibration in Diagnose(q) ==>
      && q.velMax > IsoLimit(q.powerKw, q.isFlexible)
      && q.dispMax <= 100.0
      && q.accMax <= 2.0
      && Unbalance !in SpectralFaults(q.rpm, q.peaks)
      && Misalignment !in SpectralFaults(q.rpm, q.peaks)
      && forall i :: 0 <= i < |HydraulicIssues(q.suc, q.dis, q.designHead, q.flow, q.designFlow)| ==>
           HydraulicIssues(q.suc, q.dis, q.designHead, q.flow, q.designFlow)[i] == HighHead
  {
    var ctx := BuildContext(q);
    FallbackExactly(ctx);
    HydraulicRecsMembers(ctx.hydIssues);
  }

  /** Looseness is only reported while the velocity is under the limit, so
      the foundation entry never accompanies a DANGER severity. */
  lemma FoundationIssueBelowLimit(q: Request)
    ensures FoundationIssue in Diagnose(q) <==>
      q.dispMax > 100.0 && q.velMax < IsoLimit(q.powerKw, q.isFlexible)
    ensures FoundationIssue in Diagnose(q) ==>
      CheckSeverity(q.velMax, IsoLimit(q.powerKw, q.isFlexible)) != Danger
  {
    StructuralEntry(BuildContext(q));
  }

  /** Bearing acceleration above 2 g always yields the bearing-critical entry
      and never the lubrication entry, whatever the temperature. */
  lemma BearingAboveTwoG(q: Request)
    ensures BearingCritical in Diagnose(q) <==> q.accMax > 2.0
    ensures Lubrication in Diagnose(q) <==> q.tempMax > 80.0 && q.accMax <= 1.0
  {
    BearingLubricationExclusive(BuildContext(q));
  }
}

/**
 * The six classifiers of the condition-monitoring core. Each one reduces
 * measurements to a discrete status or to a small collection of fault codes.
 * Every measurement is an exact real number.
 */
module Analyzers {
  import opened Optional

  /** Vibration severity of a velocity reading against the ISO 10816-3 limit. */
  datatype Severity = Good | Warning | Danger {
    function Rank(): nat {
      match this
      case Good => 0
      case Warning => 1
      case Danger => 2
    }
  }

  /** Bearing condition from acceleration. */
  datatype BearingStatus = BearingGood | BearingWarning | Damaged {
    function Rank(): nat {
      match this
      case BearingGood => 0
      case BearingWarning => 1
      case Damaged => 2
    }
  }

  /** Foundation and frame integrity from displacement against velocity. */
  datatype StructStatus = Rigid | LoosenessOnly | StructuralDamage {
    function Rank(): nat {
      match this
      case Rigid => 0
      case LoosenessOnly => 1
      case StructuralDamage => 2
    }
  }

  /** Thermal state from temperature. */
  datatype ThermStatus = Normal | Warm | Overheat {
    function Rank(): nat {
      match this
      case Normal => 0
      case Warm => 1
      case Overheat => 2
    }
  }

  /** Pump performance deviation from the design head and flow. */
  datatype HydIssue = LowHead | HighHead | LowFlow | HighFlow {
    predicate IsHead() { LowHead? || HighHead? }
    predicate IsFlow() { LowFlow? || HighFlow? }
  }

  /** Root-cause fault inferred from a spectral peak's order. */
  datatype SpecFault = Unbalance | Misalignment | Looseness | BearingFreq

  /** A dominant spectral peak; only its frequency (Hz) is used. */
  datatype Peak = Peak(freq: real)

  // ---------------------------------------------------------------------
  // Vibration severity
  // ---------------------------------------------------------------------

  /** Velocity limit (mm/s) from rated power (kW) and foundation class;
      the foundation is rigid unless stated otherwise. */
  function IsoLimit(kw: real, isFlexible: bool := false): (limit: real)
    ensures limit == 4.5 || limit == 7.1 || limit == 11.0
    ensures limit > 0.0
  {
    if kw < 15.0 then 4.5
    else if 15.0 <= kw <= 300.0 then (if isFlexible then 7.1 else 4.5)
    else if isFlexible then 11.0 else 7.1
  }

  /** The power bands of the limit table: 15 and 300 kW both fall in the
      middle band; the top band starts above 300. */
  lemma IsoLimitTable(kw: real, isFlexible: bool)
    ensures kw < 15.0 ==> IsoLimit(kw, isFlexible) == 4.5
    ensures 15.0 <= kw <= 300.0 ==> IsoLimit(kw, isFlexible) == if isFlexible then 7.1 else 4.5
    ensures kw > 300.0 ==> IsoLimit(kw, isFlexible) == if isFlexible then 11.0 else 7.1
  {
  }

  /** A flexible foundation never gets a stricter limit than a rigid one. */
  lemma IsoLimitFlexibleAtLeastRigid(kw: real)
    ensures IsoLimit(kw, true) >= IsoLimit(kw, false)
  {
  }

  /** For a fixed foundation the limit does not decrease with power. */
  lemma IsoLimitMonotone(kw1: real, kw2: real, isFlexible: bool)
    requires kw1 <= kw2
    ensures IsoLimit(kw1, isFlexible) <= IsoLimit(kw2, isFlexible)
  {
  }

  /** Three-band severity of a velocity reading against a limit. */
  function CheckSeverity(value: real, limit: real): (s: Severity)
    ensures s == Danger <==> value > limit
    ensures s == Warning <==> limit * 0.6 < value <= limit
    ensures s == Good <==> value <= limit && value <= limit * 0.6
  {
    if value > limit then Danger
    else if value > limit * 0.6 then Warning
    else Good
  }

  /** With a non-negative limit GOOD is exactly "at most 60 % of the limit",
      and both band boundaries fall in the lower band. */
  lemma SeverityBoundaries(value: real, limit: real)
    requires limit >= 0.0
    ensures CheckSeverity(value, limit) == Good <==> value <= limit * 0.6
    ensures CheckSeverity(limit * 0.6, limit) == Good
    ensures limit > 0.0 ==> CheckSeverity(limit, limit) == Warning
  {
  }

  /** A larger reading is never classified as less severe. */
  lemma SeverityMonotone(v1: real, v2: real, limit: real)
    requires v1 <= v2
    ensures CheckSeverity(v1, limit).Rank() <= CheckSeverity(v2, limit).Rank()
  {
  }

  // ---------------------------------------------------------------------
  // Bearing, structural and thermal classifiers
  // ---------------------------------------------------------------------

  /** Bearing condition from acceleration in g. */
  function BearingAnalyze(accelG: real): (s: BearingStatus)
    ensures s == Damaged <==> accelG > 2.0
    ensures s == BearingWarning <==> 1.0 < accelG <= 2.0
    ensures s == BearingGood <==> accelG <= 1.0
  {
    if accelG > 2.0 then Damaged
    else if accelG > 1.0 then BearingWarning
    else BearingGood
  }

  lemma BearingMonotone(a1: real, a2: real)
    requires a1 <= a2
    ensures BearingAnalyze(a1).Rank() <= BearingAnalyze(a2).Rank()
  {
  }

  /** Looseness against structural damage: high displacement with velocity
      still under the limit is pure looseness. */
  function StructuralAnalyze(dispMicron: real, velMmS: real, limitVel: real): (s: StructStatus)
    ensures s == Rigid <==> dispMicron <= 100.0
    ensures s == LoosenessOnly <==> dispMicron > 100.0 && velMmS < limitVel
    ensures s == StructuralDamage <==> dispMicron > 100.0 && velMmS >= limitVel
  {
    if dispMicron > 100.0 then
      if velMmS < limitVel then LoosenessOnly else StructuralDamage
    else Rigid
  }

  /** Velocity alone never changes RIGID, and a faster reading never moves
      a loose structure back from damage to looseness. */
  lemma StructuralMonotone(disp: real, v1: real, v2: real, limitVel: real)
    requires v1 <= v2
    ensures StructuralAnalyze(disp, v1, limitVel).Rank() <= StructuralAnalyze(disp, v2, limitVel).Rank()
    ensures StructuralAnalyze(disp, v1, limitVel) == Rigid <==> StructuralAnalyze(disp, v2, limitVel) == Rigid
  {
  }

  /** Thermal state from temperature in degrees Celsius. */
  function ThermalAnalyze(tempC: real): (s: ThermStatus)
    ensures s == Overheat <==> tempC > 80.0
    ensures s == Warm <==> 60.0 < tempC <= 80.0
    ensures s == Normal <==> tempC <= 60.0
  {
    if tempC > 80.0 then Overheat
    else if tempC > 60.0 then Warm
    else Normal
  }

  lemma ThermalMonotone(t1: real, t2: real)
    requires t1 <= t2
    ensures ThermalAnalyze(t1).Rank() <= ThermalAnalyze(t2).Rank()
  {
  }

  // ---------------------------------------------------------------------
  // Hydraulic classifier
  // ---------------------------------------------------------------------

  /** Pump head (m) from differential pressure (bar), at specific gravity 0.85. */
  function ActualHead(suc: real, dis: real): real {
    ((dis - suc) * 10.2) / 0.85
  }

  /** The head code, if any; the check is skipped without a positive design head. */
  function HeadCheck(actHead: real, designHead: real): seq<HydIssue> {
    if designHead > 0.0 then
      var ratio := (actHead / designHead) * 100.0;
      if ratio < 75.0 then [LowHead]
      else if ratio > 110.0 then [HighHead]
      else []
    else []
  }

  /** The flow code, if any; the check is skipped unless both flows are positive. */
  function FlowCheck(actFlow: real, designFlow: real): seq<HydIssue> {
    if designFlow > 0.0 && actFlow > 0.0 then
      var ratio := (actFlow / designFlow) * 100.0;
      if ratio < 60.0 then [LowFlow]
      else if ratio > 120.0 then [HighFlow]
      else []
    else []
  }

  /** Hydraulic issues in the order they are reported: head first, then flow. */
  function HydraulicIssues(suc: real, dis: real, designHead: real, actFlow: real, designFlow: real): (r: seq<HydIssue>)
    ensures |r| <= 2
    ensures forall i, j :: 0 <= i < j < |r| ==> r[i] != r[j]
    ensures forall i, j :: 0 <= i < |r| && 0 <= j < |r| && r[i].IsHead() && r[j].IsFlow() ==> i < j
    ensures forall i, j :: 0 <= i < j < |r| ==> !(r[i].IsHead() && r[j].IsHead()) && !(r[i].IsFlow() && r[j].IsFlow())
  {
    HeadCheck(ActualHead(suc, dis), designHead) + FlowCheck(actFlow, designFlow)
  }

  /** Each code is reported exactly when its ratio crosses its threshold. */
  lemma HydraulicIssuesCodes(suc: real, dis: real, designHead: real, actFlow: real, designFlow: real)
    ensures var r := HydraulicIssues(suc, dis, designHead, actFlow, designFlow);
      && (LowHead in r <==> designHead > 0.0 && (ActualHead(suc, dis) / designHead) * 100.0 < 75.0)
      && (HighHead in r <==> designHead > 0.0 && (ActualHead(suc, dis) / designHead) * 100.0 > 110.0)
      && (LowFlow in r <==> designFlow > 0.0 && actFlow > 0.0 && (actFlow / designFlow) * 100.0 < 60.0)
      && (HighFlow in r <==> designFlow > 0.0 && actFlow > 0.0 && (actFlow / designFlow) * 100.0 > 120.0)
  {
  }

  /** Suction 0.5 bar, discharge 4.0 bar: 42 m against 50 m design is 84 %,
      no head code; 30 against 100 design flow is 30 %, LOW_FLOW only. */
  lemma HydraulicExample()
    ensures ActualHead(0.5, 4.0) == 42.0
    ensures HydraulicIssues(0.5, 4.0, 50.0, 30.0, 100.0) == [LowFlow]
  {
  }

  /** The hydraulic classifier, building its result by appends. */
  method HydraulicAnalyze(suc: real, dis: real, designHead: real, actFlow: real, designFlow: real)
    returns (res: seq<HydIssue>)
    ensures res == HydraulicIssues(suc, dis, designHead, actFlow, designFlow)
  {
    res := [];
    var diffBar := dis - suc;
    var actHead := (diffBar * 10.2) / 0.85;
    if designHead > 0.0 {
      var ratio := (actHead / designHead) * 100.0;
      if ratio < 75.0 {
        res := res + [LowHead];
      } else if ratio > 110.0 {
        res := res + [HighHead];
      }
    }
    if designFlow > 0.0 && actFlow > 0.0 {
      var ratio := (actFlow / designFlow) * 100.0;
      if ratio < 60.0 {
        res := res + [LowFlow];
      } else if ratio > 120.0 {
        res := res + [HighFlow];
      }
    }
  }

  // ---------------------------------------------------------------------
  // Spectral classifier
  // ---------------------------------------------------------------------

  /** Order of a peak: its frequency as a multiple of the running frequency. */
  function Order(freq: real, rpm: real): real
    requires rpm != 0.0
  {
    freq / (rpm / 60.0)
  }

  /** The fault band an order falls in; the gaps between bands map to nothing. */
  function BandFault(order: real): (f: Option<SpecFault>)
    ensures f == Some(Unbalance) <==> 0.8 <= order <= 1.2
    ensures f == Some(Misalignment) <==> 1.8 <= order <= 2.2
    ensures f == Some(Looseness) <==> 2.8 <= order <= 3.2
    ensures f == Some(BearingFreq) <==> order > 3.5
    ensures f == None <==> order < 0.8 || 1.2 < order < 1.8 || 2.2 < order < 2.8 || 3.2 < order <= 3.5
  {
    if 0.8 <= order <= 1.2 then Some(Unbalance)
    else if 1.8 <= order <= 2.2 then Some(Misalignment)
    else if 2.8 <= order <= 3.2 then Some(Looseness)
    else if order > 3.5 then Some(BearingFreq)
    else None
  }

  /** The faults contributed by one peak. */
  function PeakFaults(p: Peak, rpm: real): set<SpecFault>
    requires rpm != 0.0
  {
    match BandFault(Order(p.freq, rpm))
    case Some(f) => {f}
    case None => {}
  }

  /** The faults contributed by a run of peaks, deduplicated. */
  function FaultsOf(peaks: seq<Peak>, rpm: real): set<SpecFault>
    requires rpm != 0.0
  {
    if |peaks| == 0 then {}
    else FaultsOf(peaks[..|peaks| - 1], rpm) + PeakFaults(peaks[|peaks| - 1], rpm)
  }

  /** A code is present exactly when some peak's order lies in its band. */
  lemma {:induction false} FaultsOfMembers(peaks: seq<Peak>, rpm: real, f: SpecFault)
    requires rpm != 0.0
    ensures f in FaultsOf(peaks, rpm) <==>
      exists i :: 0 <= i < |peaks| && BandFault(Order(peaks[i].freq, rpm)) == Some(f)
  {
    if |peaks| > 0 {
      var init := peaks[..|peaks| - 1];
      FaultsOfMembers(init, rpm, f);
      if f in FaultsOf(init, rpm) {
        var i :| 0 <= i < |init| && BandFault(Order(init[i].freq, rpm)) == Some(f);
        assert peaks[i] == init[i];
      }
      if exists i :: 0 <= i < |peaks| && BandFault(Order(peaks[i].freq, rpm)) == Some(f) {
        var i :| 0 <= i < |peaks| && BandFault(Order(peaks[i].freq, rpm)) == Some(f);
        if i < |init| {
          assert init[i] == peaks[i];
        }
      }
    }
  }

  /** The result of the spectral classifier: empty without a running speed
      or without peaks. */
  function SpectralFaults(rpm: real, peaks: seq<Peak>): (r: set<SpecFault>)
    ensures rpm == 0.0 || |peaks| == 0 ==> r == {}
  {
    if rpm == 0.0 || |peaks| == 0 then {} else FaultsOf(peaks, rpm)
  }

  /** Each code is reported exactly when some peak's order lies in its band. */
  lemma SpectralFaultsBands(rpm: real, peaks: seq<Peak>)
    ensures Unbalance in SpectralFaults(rpm, peaks) <==>
      rpm != 0.0 && exists i :: 0 <= i < |peaks| && 0.8 <= Order(peaks[i].freq, rpm) <= 1.2
    ensures Misalignment in SpectralFaults(rpm, peaks) <==>
      rpm != 0.0 && exists i :: 0 <= i < |peaks| && 1.8 <= Order(peaks[i].freq, rpm) <= 2.2
    ensures Looseness in SpectralFaults(rpm, peaks) <==>
      rpm != 0.0 && exists i :: 0 <= i < |peaks| && 2.8 <= Order(peaks[i].freq, rpm) <= 3.2
    ensures BearingFreq in SpectralFaults(rpm, peaks) <==>
      rpm != 0.0 && exists i :: 0 <= i < |peaks| && Order(peaks[i].freq, rpm) > 3.5
  {
    if rpm != 0.0 {
      FaultsOfMembers(peaks, rpm, Unbalance);
      FaultsOfMembers(peaks, rpm, Misalignment);
      FaultsOfMembers(peaks, rpm, Looseness);
      FaultsOfMembers(peaks, rpm, BearingFreq);
    }
  }

  /** A peak whose order falls between bands adds nothing. */
  lemma GapPeakAddsNothing(rpm: real, peaks: seq<Peak>, p: Peak)
    requires rpm != 0.0
    requires BandFault(Order(p.freq, rpm)) == None
    ensures SpectralFaults(rpm, peaks + [p]) == SpectralFaults(rpm, peaks)
  {
    assert PeakFaults(p, rpm) == {};
    assert (peaks + [p])[..|peaks|] == peaks;
    assert FaultsOf(peaks + [p], rpm) == FaultsOf(peaks, rpm);
  }

  /** 3000 rpm runs at 50 Hz; peaks at 50, 100 and 200 Hz have orders 1, 2
      and 4. */
  lemma SpectralExample()
    ensures SpectralFaults(3000.0, [Peak(50.0), Peak(100.0), Peak(200.0)])
      == {Unbalance, Misalignment, BearingFreq}
  {
    var peaks := [Peak(50.0), Peak(100.0), Peak(200.0)];
    assert Order(50.0, 3000.0) == 1.0;
    assert Order(100.0, 3000.0) == 2.0;
    assert Order(200.0, 3000.0) == 4.0;
    assert peaks[..2] == [Peak(50.0), Peak(100.0)];
    assert peaks[..2][..1] == [Peak(50.0)];
    assert peaks[..2][..1][..0] == [];
    assert PeakFaults(Peak(50.0), 3000.0) == {Unbalance};
    assert PeakFaults(Peak(100.0), 3000.0) == {Misalignment};
    assert PeakFaults(Peak(200.0), 3000.0) == {BearingFreq};
    assert FaultsOf(peaks[..2][..1], 3000.0) == {Unbalance};
    assert FaultsOf(peaks[..2], 3000.0) == {Unbalance, Misalignment};
  }

  /** The spectral classifier: one pass over the peaks collecting each
      peak's fault, then deduplication. */
  method SpectrumAnalyze(rpm: real, peaks: seq<Peak>) returns (r: set<SpecFault>)
    ensures r == SpectralFaults(rpm, peaks)
  {
    if rpm == 0.0 || |peaks| == 0 {
      return {};
    }
    var runHz := rpm / 60.0;
    var faults: seq<SpecFault> := [];
    for k := 0 to |peaks|
      invariant (set f | f in faults) == FaultsOf(peaks[..k], rpm)
    {
      var order := peaks[k].freq / runHz;
      assert order == Order(peaks[k].freq, rpm);
      if 0.8 <= order <= 1.2 {
        faults := faults + [Unbalance];
      } else if 1.8 <= order <= 2.2 {
        faults := faults + [Misalignment];
      } else if 2.8 <= order <= 3.2 {
        faults := faults + [Looseness];
      } else if order > 3.5 {
        faults := faults + [BearingFreq];
      }
      assert peaks[..k + 1][..k] == peaks[..k];
    }
    assert peaks[..|peaks|] == peaks;
    r := set f | f in faults;
  }
}

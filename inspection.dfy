/** The inspection record: the aggregate that owns the defects found in one
    inspection, derives the inspection result from their severities, runs
    the weight, temperature and barcode checks, and queues domain events in
    an outbox that the caller drains after saving the record. */
module Inspection {
  import opened QualityTypes
  import opened Events
  import opened Defects
  import opened Sampling

  /** The result after one more defect of severity `severity` is added to an
      inspection whose result is `current` (None: `perform` not yet called). */
  function NextResult(current: Option<InspectionResult>, severity: Option<SeverityLevel>)
    : Option<InspectionResult>
  {
    if severity == Some(SeverityLevel.CRITICAL) then Some(QUARANTINE)
    else if severity == Some(HIGH) then Some(FAILED)
    else if current == Some(PASSED) then Some(CONDITIONAL)
    else current
  }

  /** The result after the defects `ds` are added in order, starting from `start`. */
  function ResultAfter(start: Option<InspectionResult>, ds: seq<Defect>): Option<InspectionResult> {
    if ds == [] then start
    else NextResult(ResultAfter(start, ds[..|ds| - 1]), ds[|ds| - 1].severity)
  }

  /** Position of a result in the escalation order PASSED < CONDITIONAL < FAILED < QUARANTINE. */
  function Rank(r: InspectionResult): nat {
    match r
    case PASSED => 0
    case CONDITIONAL => 1
    case FAILED => 2
    case QUARANTINE => 3
  }

  /** One defect never improves the result, with one exception: a HIGH
      defect takes QUARANTINE back to FAILED. A CRITICAL defect quarantines
      from any state, and once `perform` has run no defect leaves the
      result at PASSED. */
  lemma OneDefectStep(current: InspectionResult, severity: Option<SeverityLevel>)
    ensures NextResult(Some(current), Some(SeverityLevel.CRITICAL)) == Some(QUARANTINE)
    ensures NextResult(Some(current), Some(HIGH)) == Some(FAILED)
    ensures NextResult(Some(current), severity) != Some(PASSED)
    ensures NextResult(Some(current), severity).Some?
    ensures !(current == QUARANTINE && severity == Some(HIGH)) ==>
              Rank(current) <= Rank(NextResult(Some(current), severity).value)
    ensures NextResult(Some(QUARANTINE), Some(HIGH)) == Some(FAILED)
  {
  }

  /** Defect `i` is CRITICAL and no HIGH defect comes after it. */
  ghost predicate QuarantinedAt(ds: seq<Defect>, i: int) {
    0 <= i < |ds| && ds[i].IsCritical() &&
    forall j :: i < j < |ds| ==> ds[j].severity != Some(HIGH)
  }

  /** Defect `i` is HIGH and no CRITICAL defect comes after it. */
  ghost predicate FailedAt(ds: seq<Defect>, i: int) {
    0 <= i < |ds| && ds[i].severity == Some(HIGH) &&
    forall j :: i < j < |ds| ==> !ds[j].IsCritical()
  }

  /** The result of a performed inspection is decided by its defects alone:
      PASSED with none; QUARANTINE when some CRITICAL defect is followed by
      no HIGH one; FAILED when some HIGH defect is followed by no CRITICAL
      one; CONDITIONAL when there are defects but none is HIGH or CRITICAL. */
  lemma ResultOfDefects(ds: seq<Defect>)
    ensures ResultAfter(Some(PASSED), ds) == Some(PASSED) <==> ds == []
    ensures ResultAfter(Some(PASSED), ds) == Some(CONDITIONAL) <==>
              ds != [] && forall i :: 0 <= i < |ds| ==> !ds[i].RequiresImmediateAction()
    ensures ResultAfter(Some(PASSED), ds) == Some(QUARANTINE) <==> exists i :: QuarantinedAt(ds, i)
    ensures ResultAfter(Some(PASSED), ds) == Some(FAILED) <==> exists i :: FailedAt(ds, i)
  {
    PassedOnlyWithoutDefects(ds);
    ConditionalIff(ds);
    QuarantineIff(ds);
    FailedIff(ds);
  }

  lemma {:induction false} PassedOnlyWithoutDefects(ds: seq<Defect>)
    ensures ResultAfter(Some(PASSED), ds).Some?
    ensures ResultAfter(Some(PASSED), ds) == Some(PASSED) <==> ds == []
  {
    if ds != [] {
      PassedOnlyWithoutDefects(ds[..|ds| - 1]);
    }
  }

  lemma {:induction false} ConditionalIff(ds: seq<Defect>)
    ensures ResultAfter(Some(PASSED), ds) == Some(CONDITIONAL) <==>
              ds != [] && forall i :: 0 <= i < |ds| ==> !ds[i].RequiresImmediateAction()
  {
    if ds != [] {
      var n := |ds| - 1;
      var prefix := ds[..n];
      ConditionalIff(prefix);
      PassedOnlyWithoutDefects(prefix);
      assert forall i :: 0 <= i < n ==> prefix[i] == ds[i];
      if !ds[n].RequiresImmediateAction() && prefix != [] &&
         ResultAfter(Some(PASSED), prefix) != Some(CONDITIONAL) {
        var i :| 0 <= i < n && prefix[i].RequiresImmediateAction();
        assert ds[i].RequiresImmediateAction();
      }
    }
  }

  lemma {:induction false} QuarantineIff(ds: seq<Defect>)
    ensures ResultAfter(Some(PASSED), ds) == Some(QUARANTINE) <==> exists i :: QuarantinedAt(ds, i)
  {
    if ds != [] {
      var n := |ds| - 1;
      var prefix := ds[..n];
      QuarantineIff(prefix);
      assert forall i :: 0 <= i < n ==> prefix[i] == ds[i];
      if ds[n].IsCritical() {
        assert QuarantinedAt(ds, n);
      } else if ds[n].severity == Some(HIGH) {
        forall i | 0 <= i < |ds| && ds[i].IsCritical()
          ensures !QuarantinedAt(ds, i)
        {
          assert i < n && ds[n].severity == Some(HIGH);
        }
      } else {
        if i :| QuarantinedAt(prefix, i) {
          assert QuarantinedAt(ds, i);
        }
        if i :| QuarantinedAt(ds, i) {
          assert QuarantinedAt(prefix, i);
        }
      }
    }
  }

  lemma {:induction false} FailedIff(ds: seq<Defect>)
    ensures ResultAfter(Some(PASSED), ds) == Some(FAILED) <==> exists i :: FailedAt(ds, i)
  {
    if ds != [] {
      var n := |ds| - 1;
      var prefix := ds[..n];
      FailedIff(prefix);
      assert forall i :: 0 <= i < n ==> prefix[i] == ds[i];
      if ds[n].severity == Some(HIGH) {
        assert FailedAt(ds, n);
      } else if ds[n].IsCritical() {
        forall i | 0 <= i < |ds| && ds[i].severity == Some(HIGH)
          ensures !FailedAt(ds, i)
        {
          assert i < n && ds[n].IsCritical();
        }
      } else {
        if i :| FailedAt(prefix, i) {
          assert FailedAt(ds, i);
        }
        if i :| FailedAt(ds, i) {
          assert FailedAt(prefix, i);
        }
      }
    }
  }

  /** Percentage deviation of the measured weight from the expected one. */
  function WeightDeviation(weightKg: real, expectedWeightKg: real): (deviation: real)
    requires expectedWeightKg > 0.0
    ensures deviation >= 0.0
  {
    Abs(weightKg - expectedWeightKg) / expectedWeightKg * 100.0
  }

  /** The weight check fires: both weights are positive and the deviation
      exceeds the tolerance. */
  predicate WeightOutOfTolerance(weightKg: real, expectedWeightKg: real, tolerancePercent: real) {
    weightKg > 0.0 && expectedWeightKg > 0.0 &&
    WeightDeviation(weightKg, expectedWeightKg) > tolerancePercent
  }

  /** The weight check without division: the difference, scaled to a
      percentage, exceeds the tolerance's share of the expected weight. */
  lemma WeightCheckByCrossMultiplying(weightKg: real, expectedWeightKg: real, tolerancePercent: real)
    ensures WeightOutOfTolerance(weightKg, expectedWeightKg, tolerancePercent) <==>
              weightKg > 0.0 && expectedWeightKg > 0.0 &&
              Abs(weightKg - expectedWeightKg) * 100.0 > tolerancePercent * expectedWeightKg
  {
    if weightKg > 0.0 && expectedWeightKg > 0.0 {
      var e := expectedWeightKg;
      var deviation := WeightDeviation(weightKg, e);
      assert deviation * e == Abs(weightKg - e) * 100.0;
      if deviation > tolerancePercent {
        assert deviation * e > tolerancePercent * e;
      } else {
        assert deviation * e <= tolerancePercent * e;
      }
    }
  }

  /** The defect the weight check creates. */
  function WeightDefect(defectId: string, now: Instant, description: string): Defect {
    Built([DefectIdValue(Some(defectId)), TypeValue(Some(WEIGHT_DISCREPANCY)),
           SeverityValue(Some(MEDIUM)), DescriptionValue(Some(description)),
           QuantityValue(1), ReportedAtValue(Some(now))])
  }

  /** The defect the temperature check creates. */
  function TemperatureDefect(defectId: string, now: Instant, description: string): Defect {
    Built([DefectIdValue(Some(defectId)), TypeValue(Some(TEMPERATURE_VIOLATION)),
           SeverityValue(Some(SeverityLevel.CRITICAL)), DescriptionValue(Some(description)),
           QuantityValue(1), ReportedAtValue(Some(now))])
  }

  /** The defect the barcode check creates. */
  function BarcodeDefect(defectId: string, now: Instant): Defect {
    Built([DefectIdValue(Some(defectId)), TypeValue(Some(BARCODE_UNREADABLE)),
           SeverityValue(Some(MAJOR)), DescriptionValue(Some("Barcode mismatch or unreadable")),
           QuantityValue(1), ReportedAtValue(Some(now))])
  }

  /** The weight check builds a MEDIUM weight-discrepancy defect with
      exactly the fields its builder chain sets. */
  lemma WeightDefectFields(defectId: string, now: Instant, description: string)
    ensures WeightDefect(defectId, now, description) ==
            Defect(Some(defectId), Some(WEIGHT_DISCREPANCY), Some(MEDIUM), Some(description),
                   None, 1, None, None, Some(now), None, None)
  {
    BuiltInOrder(DefectIdValue(Some(defectId)), TypeValue(Some(WEIGHT_DISCREPANCY)),
                 SeverityValue(Some(MEDIUM)), DescriptionValue(Some(description)),
                 QuantityValue(1), ReportedAtValue(Some(now)));
  }

  /** The temperature check builds a CRITICAL temperature-violation defect
      with exactly the fields its builder chain sets. */
  lemma TemperatureDefectFields(defectId: string, now: Instant, description: string)
    ensures TemperatureDefect(defectId, now, description) ==
            Defect(Some(defectId), Some(TEMPERATURE_VIOLATION), Some(SeverityLevel.CRITICAL),
                   Some(description), None, 1, None, None, Some(now), None, None)
  {
    BuiltInOrder(DefectIdValue(Some(defectId)), TypeValue(Some(TEMPERATURE_VIOLATION)),
                 SeverityValue(Some(SeverityLevel.CRITICAL)), DescriptionValue(Some(description)),
                 QuantityValue(1), ReportedAtValue(Some(now)));
  }

  /** The barcode check builds a MAJOR barcode-unreadable defect with
      exactly the fields its builder chain sets. */
  lemma BarcodeDefectFields(defectId: string, now: Instant)
    ensures BarcodeDefect(defectId, now) ==
            Defect(Some(defectId), Some(BARCODE_UNREADABLE), Some(MAJOR),
                   Some("Barcode mismatch or unreadable"), None, 1, None, None, Some(now), None, None)
  {
    BuiltInOrder(DefectIdValue(Some(defectId)), TypeValue(Some(BARCODE_UNREADABLE)),
                 SeverityValue(Some(MAJOR)), DescriptionValue(Some("Barcode mismatch or unreadable")),
                 QuantityValue(1), ReportedAtValue(Some(now)));
  }

  /** A chain of six builder calls applies them in order. */
  lemma BuiltInOrder(a: FieldValue, b: FieldValue, c: FieldValue, d: FieldValue,
                     e: FieldValue, f: FieldValue)
    ensures Built([a, b, c, d, e, f]) ==
            Assign(Assign(Assign(Assign(Assign(Assign(Unset(), a), b), c), d), e), f)
  {
    var s6, s5, s4, s3, s2, s1 := [a, b, c, d, e, f], [a, b, c, d, e], [a, b, c, d], [a, b, c], [a, b], [a];
    assert s6[..5] == s5 && s5[..4] == s4 && s4[..3] == s3 && s3[..2] == s2 && s2[..1] == s1;
    assert Built(s1) == Assign(Unset(), a) by { assert s1[..0] == []; }
    assert Built(s2) == Assign(Built(s1), b);
    assert Built(s3) == Assign(Built(s2), c);
    assert Built(s4) == Assign(Built(s3), d);
    assert Built(s5) == Assign(Built(s4), e);
    assert Built(s6) == Assign(Built(s5), f);
  }

  class InspectionRecord {
    var id: string
    var inspectionType: InspectionType
    var result: Option<InspectionResult>
    var inspectedAt: Option<Instant>

    var defects: seq<Defect>
    var photoUrls: seq<string>

    var samplingStrategy: SamplingStrategy
    var sampleSize: int
    var itemsInspected: int
    var defectsFound: int

    var temperatureCelsius: real
    var weightKg: real
    var expectedWeightKg: real
    var weightTolerancePercent: real

    var barcode: Option<string>
    var barcodeVerified: bool

    var correctionAction: Option<string>
    var correctionCompletedAt: Option<Instant>

    /** The outbox: events raised and not yet drained by the caller. */
    var domainEvents: seq<Event>

    /** Whether `perform` has run, and how many defects there were when it last did. */
    ghost var performed: bool
    ghost var performedAtDefect: nat

    /** `defectsFound` counts the defects, and the result is decided by the
        defects added since `perform` last ran. */
    ghost predicate Valid()
      reads this
    {
      && defectsFound == |defects|
      && performedAtDefect <= |defects|
      && result == ResultAfter(if performed then Some(PASSED) else None, defects[performedAtDefect..])
    }

    /** A new record as the application creates it: no result, no defects,
        no events. */
    constructor (id: string, inspectionType: InspectionType, samplingStrategy: SamplingStrategy,
                 sampleSize: int, itemsInspected: int, temperatureCelsius: real,
                 weightKg: real, expectedWeightKg: real, weightTolerancePercent: real,
                 barcode: Option<string>, photoUrls: seq<string>)
      ensures Valid() && !performed
      ensures this.id == id && this.inspectionType == inspectionType
      ensures this.samplingStrategy == samplingStrategy && this.sampleSize == sampleSize
      ensures this.itemsInspected == itemsInspected && this.temperatureCelsius == temperatureCelsius
      ensures this.weightKg == weightKg && this.expectedWeightKg == expectedWeightKg
      ensures this.weightTolerancePercent == weightTolerancePercent
      ensures this.barcode == barcode && this.photoUrls == photoUrls
      ensures result == None && inspectedAt == None && defects == [] && defectsFound == 0
      ensures !barcodeVerified && correctionAction == None && correctionCompletedAt == None
      ensures domainEvents == []
    {
      this.id := id;
      this.inspectionType := inspectionType;
      this.samplingStrategy := samplingStrategy;
      this.sampleSize := sampleSize;
      this.itemsInspected := itemsInspected;
      this.temperatureCelsius := temperatureCelsius;
      this.weightKg := weightKg;
      this.expectedWeightKg := expectedWeightKg;
      this.weightTolerancePercent := weightTolerancePercent;
      this.barcode := barcode;
      this.photoUrls := photoUrls;
      result := None;
      inspectedAt := None;
      defects := [];
      defectsFound := 0;
      barcodeVerified := false;
      correctionAction := None;
      correctionCompletedAt := None;
      domainEvents := [];
      performed := false;
      performedAtDefect := 0;
    }

    /** Starts the inspection: stamps the time and assumes PASSED. */
    method Perform(now: Instant)
      requires Valid()
      modifies this`inspectedAt, this`result, this`performed, this`performedAtDefect
      ensures Valid() && performed
      ensures inspectedAt == Some(now) && result == Some(PASSED)
    {
      inspectedAt := Some(now);
      result := Some(PASSED);
      performed := true;
      performedAtDefect := |defects|;
    }

    /** Records a defect and moves the result by its severity; a CRITICAL
        defect also raises a DefectDetected event. */
    method AddDefect(d: Defect)
      requires Valid()
      requires d.IsCritical() ==> d.defectType.Some?
      modifies this`defects, this`defectsFound, this`result, this`domainEvents
      ensures Valid()
      ensures defects == old(defects) + [d] && defectsFound == old(defectsFound) + 1
      ensures result == NextResult(old(result), d.severity)
      ensures performed ==> result != Some(PASSED)
      ensures domainEvents == old(domainEvents) +
                (if d.IsCritical()
                 then [DefectDetected(id, d.defectType.value, SeverityLevel.CRITICAL, d.description)]
                 else [])
    {
      ghost var since := defects[performedAtDefect..];
      defects := defects + [d];
      defectsFound := defectsFound + 1;
      assert defects[performedAtDefect..] == since + [d];
      assert (since + [d])[..|since|] == since;

      if d.IsCritical() {
        result := Some(QUARANTINE);
        domainEvents := domainEvents +
          [DefectDetected(id, d.defectType.value, SeverityLevel.CRITICAL, d.description)];
      } else if d.severity == Some(HIGH) {
        result := Some(FAILED);
      } else if result == Some(PASSED) {
        result := Some(CONDITIONAL);
      }

      if performed {
        ResultOfDefects(defects[performedAtDefect..]);
      }
    }

    /** Adds one MEDIUM weight-discrepancy defect when both weights are
        positive and the deviation exceeds the tolerance; otherwise changes
        nothing. The formatted description is a parameter. */
    method ValidateWeight(defectId: string, now: Instant, description: string)
      requires Valid()
      modifies this`defects, this`defectsFound, this`result, this`domainEvents
      ensures Valid() && domainEvents == old(domainEvents)
      ensures if WeightOutOfTolerance(weightKg, expectedWeightKg, weightTolerancePercent)
              then defects == old(defects) + [WeightDefect(defectId, now, description)] &&
                   defectsFound == old(defectsFound) + 1 &&
                   result == NextResult(old(result), Some(MEDIUM))
              else defects == old(defects) && defectsFound == old(defectsFound) &&
                   result == old(result)
    {
      if weightKg > 0.0 && expectedWeightKg > 0.0 {
        var deviation := WeightDeviation(weightKg, expectedWeightKg);
        if deviation > weightTolerancePercent {
          WeightDefectFields(defectId, now, description);
          AddDefect(WeightDefect(defectId, now, description));
        }
      }
    }

    /** Adds one CRITICAL temperature-violation defect, and so quarantines
        the record, when the temperature lies outside [minTemp, maxTemp];
        the bounds themselves are accepted. */
    method ValidateTemperature(minTemp: real, maxTemp: real, defectId: string, now: Instant,
                               description: string)
      requires Valid()
      modifies this`defects, this`defectsFound, this`result, this`domainEvents
      ensures Valid()
      ensures if temperatureCelsius < minTemp || temperatureCelsius > maxTemp
              then defects == old(defects) + [TemperatureDefect(defectId, now, description)] &&
                   defectsFound == old(defectsFound) + 1 &&
                   result == Some(QUARANTINE) &&
                   domainEvents == old(domainEvents) +
                     [DefectDetected(id, TEMPERATURE_VIOLATION, SeverityLevel.CRITICAL, Some(description))]
              else defects == old(defects) && defectsFound == old(defectsFound) &&
                   result == old(result) && domainEvents == old(domainEvents)
    {
      if temperatureCelsius < minTemp || temperatureCelsius > maxTemp {
        TemperatureDefectFields(defectId, now, description);
        AddDefect(TemperatureDefect(defectId, now, description));
      }
    }

    /** Records whether the barcode matches `expectedBarcode`, and on a
        mismatch adds one MAJOR barcode-unreadable defect. */
    method ValidateBarcode(expectedBarcode: string, defectId: string, now: Instant)
      requires Valid()
      modifies this`barcodeVerified, this`defects, this`defectsFound, this`result, this`domainEvents
      ensures Valid() && domainEvents == old(domainEvents)
      ensures barcodeVerified == (barcode == Some(expectedBarcode))
      ensures if barcodeVerified
              then defects == old(defects) && defectsFound == old(defectsFound) &&
                   result == old(result)
              else defects == old(defects) + [BarcodeDefect(defectId, now)] &&
                   defectsFound == old(defectsFound) + 1 &&
                   result == NextResult(old(result), Some(MAJOR))
    {
      barcodeVerified := Some(expectedBarcode) == barcode;
      if !barcodeVerified {
        BarcodeDefectFields(defectId, now);
        AddDefect(BarcodeDefect(defectId, now));
      }
    }

    /** Finishes the inspection: a quarantined record first raises a
        CRITICAL_DEFECT compliance violation; every record then raises
        InspectionCompleted with its type, result and counts. The result and
        the defects are left alone. */
    method Complete()
      requires Valid() && result.Some?
      modifies this`domainEvents
      ensures Valid()
      ensures domainEvents == old(domainEvents) +
                (if result == Some(QUARANTINE)
                 then [ComplianceViolation(id, "CRITICAL_DEFECT", "Critical defects found - item quarantined")]
                 else []) +
                [InspectionCompleted(id, inspectionType, result.value, defectsFound, itemsInspected)]
    {
      if result == Some(QUARANTINE) {
        domainEvents := domainEvents +
          [ComplianceViolation(id, "CRITICAL_DEFECT", "Critical defects found - item quarantined")];
      }
      domainEvents := domainEvents +
        [InspectionCompleted(id, inspectionType, result.value, defectsFound, itemsInspected)];
    }

    /** Raises a NonConformanceCreated event carrying the defect count. */
    method CreateNonConformance(description: string)
      requires Valid()
      modifies this`domainEvents
      ensures Valid()
      ensures domainEvents == old(domainEvents) + [NonConformanceCreated(id, description, |defects|)]
    {
      domainEvents := domainEvents + [NonConformanceCreated(id, description, defectsFound)];
    }

    /** Records the corrective action and when it was taken, and raises a
        CorrectiveActionTaken event. */
    method ApplyCorrection(action: string, now: Instant)
      requires Valid()
      modifies this`correctionAction, this`correctionCompletedAt, this`domainEvents
      ensures Valid()
      ensures correctionAction == Some(action) && correctionCompletedAt == Some(now)
      ensures domainEvents == old(domainEvents) + [CorrectiveActionTaken(id, action, now)]
    {
      correctionAction := Some(action);
      correctionCompletedAt := Some(now);
      domainEvents := domainEvents + [CorrectiveActionTaken(id, action, now)];
    }

    /** Defects per hundred items inspected; 0 when no item was inspected. */
    function DefectRate(): (rate: real)
      reads this
      ensures itemsInspected <= 0 ==> rate == 0.0
      ensures itemsInspected > 0 ==> rate * itemsInspected as real == defectsFound as real * 100.0
    {
      if itemsInspected > 0 then defectsFound as real / itemsInspected as real * 100.0 else 0.0
    }

    function HasPhotos(): (has: bool)
      reads this
      ensures has <==> |photoUrls| > 0
    {
      photoUrls != []
    }

    /** Photographic evidence is required exactly when a defect was found. */
    function RequiresPhotos(): (required: bool)
      reads this
      requires Valid()
      ensures required <==> defectsFound > 0
    {
      defects != []
    }

    /** A copy of the outbox; the outbox itself is left as it is. */
    method GetDomainEvents() returns (events: seq<Event>)
      ensures events == domainEvents
    {
      events := domainEvents;
    }

    /** Empties the outbox; nothing else changes. */
    method ClearDomainEvents()
      requires Valid()
      modifies this`domainEvents
      ensures Valid() && domainEvents == []
    {
      domainEvents := [];
    }
  }
}

/** The rule evaluation engine: applies the rules for an inspection's type
    to a snapshot of the inspection, splits them into passed and failed,
    and derives the counts and the overall verdict. */
module RuleEvaluation {
  import opened QualityTypes
  import opened Inspection
  import opened Compliance

  datatype RuleEvaluationResult = RuleEvaluationResult(
    totalRules: int,
    passedRules: int,
    failedRules: int,
    criticalFailures: int,
    failedRuleDetails: seq<ComplianceRule>,
    overallPassed: bool)

  /** The snapshot the rules read: eight named fields of the inspection. */
  function InspectionData(inspection: InspectionRecord): map<string, Value>
    reads inspection
  {
    map[
      "temperatureCelsius" := Number(inspection.temperatureCelsius),
      "weightKg" := Number(inspection.weightKg),
      "expectedWeightKg" := Number(inspection.expectedWeightKg),
      "defectRate" := Number(inspection.DefectRate()),
      "defectsFound" := Number(inspection.defectsFound as real),
      "itemsInspected" := Number(inspection.itemsInspected as real),
      "barcodeVerified" := Flag(inspection.barcodeVerified),
      "hasPhotos" := Flag(inspection.HasPhotos())
    ]
  }

  /** The snapshot has exactly eight keys. */
  lemma InspectionDataKeys(inspection: InspectionRecord)
    ensures InspectionData(inspection).Keys ==
              {"temperatureCelsius", "weightKg", "expectedWeightKg", "defectRate",
               "defectsFound", "itemsInspected", "barcodeVerified", "hasPhotos"}
  {
  }

  /** Six keys hold numbers read from the record, and two hold flags. */
  lemma InspectionDataValues(inspection: InspectionRecord)
    ensures var data := InspectionData(inspection);
            && data["temperatureCelsius"] == Number(inspection.temperatureCelsius)
            && data["weightKg"] == Number(inspection.weightKg)
            && data["expectedWeightKg"] == Number(inspection.expectedWeightKg)
            && data["defectRate"] == Number(inspection.DefectRate())
            && data["defectsFound"] == Number(inspection.defectsFound as real)
            && data["itemsInspected"] == Number(inspection.itemsInspected as real)
            && data["barcodeVerified"] == Flag(inspection.barcodeVerified)
            && data["hasPhotos"] == Flag(|inspection.photoUrls| > 0)
  {
    assert |"temperatureCelsius"| == 18 && |"weightKg"| == 8 && |"expectedWeightKg"| == 16;
    assert |"defectRate"| == 10 && |"defectsFound"| == 12 && |"itemsInspected"| == 14;
    assert |"barcodeVerified"| == 15 && |"hasPhotos"| == 9;
  }

  /** Every rule that applies to inspections of type `t` can be evaluated. */
  predicate ApplicableEvaluable(rules: seq<ComplianceRule>, t: InspectionType) {
    forall i :: 0 <= i < |rules| ==> rules[i].applicableTo == t ==> Evaluable(rules[i])
  }

  /** The rules that apply to inspections of type `t`, in input order. */
  function Applicable(rules: seq<ComplianceRule>, t: InspectionType): seq<ComplianceRule> {
    if rules == [] then []
    else
      var last := rules[|rules| - 1];
      Applicable(rules[..|rules| - 1], t) + (if last.applicableTo == t then [last] else [])
  }

  /** The applicable rules that `data` satisfies (`passing`) or does not
      satisfy (`!passing`), in input order. */
  function Outcome(rules: seq<ComplianceRule>, t: InspectionType, data: map<string, Value>,
                   passing: bool): (selected: seq<ComplianceRule>)
    requires ApplicableEvaluable(rules, t)
    ensures |selected| <= |rules|
    ensures forall r :: r in selected ==>
              r in rules && r.applicableTo == t && Evaluate(r, data) == passing
  {
    if rules == [] then []
    else
      var last := rules[|rules| - 1];
      Outcome(rules[..|rules| - 1], t, data, passing) +
        (if last.applicableTo == t && Evaluate(last, data) == passing then [last] else [])
  }

  /** How many of `rules` are at level CRITICAL. */
  function CountCritical(rules: seq<ComplianceRule>): nat {
    if rules == [] then 0
    else CountCritical(rules[..|rules| - 1]) + (if rules[|rules| - 1].level == ComplianceLevel.CRITICAL then 1 else 0)
  }

  /** There are no CRITICAL failures exactly when no failed rule is CRITICAL. */
  lemma {:induction false} NoCriticalCounted(rules: seq<ComplianceRule>)
    ensures CountCritical(rules) <= |rules|
    ensures CountCritical(rules) == 0 <==> forall i :: 0 <= i < |rules| ==> rules[i].level != ComplianceLevel.CRITICAL
  {
    if rules != [] {
      var n := |rules| - 1;
      NoCriticalCounted(rules[..n]);
      assert forall i :: 0 <= i < n ==> rules[..n][i] == rules[i];
    }
  }

  /** Every applicable rule either passes or fails, and inapplicable rules
      are in neither group: passed + failed is the number of applicable
      rules. */
  lemma {:induction false} PassedAndFailedPartition(rules: seq<ComplianceRule>, t: InspectionType,
                                                    data: map<string, Value>)
    requires ApplicableEvaluable(rules, t)
    ensures |Outcome(rules, t, data, true)| + |Outcome(rules, t, data, false)| == |Applicable(rules, t)|
  {
    if rules != [] {
      var n := |rules| - 1;
      assert ApplicableEvaluable(rules[..n], t) by {
        assert forall i :: 0 <= i < n ==> rules[..n][i] == rules[i];
      }
      PassedAndFailedPartition(rules[..n], t, data);
    }
  }

  /** The applicable rules are at most all of them, and all of them exactly
      when every rule applies. */
  lemma {:induction false} ApplicableBound(rules: seq<ComplianceRule>, t: InspectionType)
    ensures |Applicable(rules, t)| <= |rules|
    ensures |Applicable(rules, t)| == |rules| <==> forall i :: 0 <= i < |rules| ==> rules[i].applicableTo == t
  {
    if rules != [] {
      var n := |rules| - 1;
      ApplicableBound(rules[..n], t);
      assert forall i :: 0 <= i < n ==> rules[..n][i] == rules[i];
    }
  }

  /** One more rule extends each outcome by at most that rule. */
  lemma OutcomeExtend(rules: seq<ComplianceRule>, t: InspectionType, data: map<string, Value>,
                      passing: bool, i: int)
    requires ApplicableEvaluable(rules, t) && 0 <= i < |rules|
    ensures ApplicableEvaluable(rules[..i], t) && ApplicableEvaluable(rules[..i + 1], t)
    ensures Outcome(rules[..i + 1], t, data, passing) ==
              Outcome(rules[..i], t, data, passing) +
              (if rules[i].applicableTo == t && Evaluate(rules[i], data) == passing then [rules[i]] else [])
  {
    assert rules[..i + 1][..i] == rules[..i];
    assert forall j :: 0 <= j <= i ==> rules[..i + 1][j] == rules[j];
  }

  /** The loop over the rules: skips the rules for other inspection types
      and files each remaining rule under passed or failed, in input order. */
  method SplitByOutcome(rules: seq<ComplianceRule>, t: InspectionType, data: map<string, Value>)
    returns (passed: seq<ComplianceRule>, failed: seq<ComplianceRule>)
    requires ApplicableEvaluable(rules, t)
    ensures passed == Outcome(rules, t, data, true)
    ensures failed == Outcome(rules, t, data, false)
  {
    passed := [];
    failed := [];
    var i := 0;
    while i < |rules|
      invariant 0 <= i <= |rules|
      invariant ApplicableEvaluable(rules[..i], t)
      invariant passed == Outcome(rules[..i], t, data, true)
      invariant failed == Outcome(rules[..i], t, data, false)
    {
      var rule := rules[i];
      OutcomeExtend(rules, t, data, true, i);
      OutcomeExtend(rules, t, data, false, i);
      if rule.applicableTo == t {
        var ok := Evaluate(rule, data);
        if ok {
          passed := passed + [rule];
        } else {
          failed := failed + [rule];
        }
      }
      i := i + 1;
    }
    assert rules[..i] == rules;
  }

  /** Evaluates the rules for `inspection`'s type against its snapshot.
      Rules of other types are skipped, yet `totalRules` counts every rule
      given, so passed + failed reaches totalRules only when every rule
      applies; the verdict is a pass exactly when no CRITICAL rule failed. */
  method EvaluateRules(inspection: InspectionRecord, rules: seq<ComplianceRule>)
    returns (r: RuleEvaluationResult)
    requires ApplicableEvaluable(rules, inspection.inspectionType)
    ensures r.totalRules == |rules|
    ensures r.passedRules + r.failedRules <= r.totalRules
    ensures r.passedRules + r.failedRules == r.totalRules <==>
              forall i :: 0 <= i < |rules| ==> rules[i].applicableTo == inspection.inspectionType
    ensures r.failedRuleDetails == Outcome(rules, inspection.inspectionType, InspectionData(inspection), false)
    ensures r.passedRules == |Outcome(rules, inspection.inspectionType, InspectionData(inspection), true)|
    ensures r.failedRules == |r.failedRuleDetails|
    ensures r.criticalFailures == CountCritical(r.failedRuleDetails)
    ensures r.overallPassed <==> r.criticalFailures == 0
    ensures r.overallPassed <==>
              forall i :: 0 <= i < |r.failedRuleDetails| ==> r.failedRuleDetails[i].level != ComplianceLevel.CRITICAL
  {
    var data := InspectionData(inspection);
    var passed, failed := SplitByOutcome(rules, inspection.inspectionType, data);
    var noneCritical := forall k :: 0 <= k < |failed| ==> failed[k].level != ComplianceLevel.CRITICAL;
    NoCriticalCounted(failed);
    PassedAndFailedPartition(rules, inspection.inspectionType, data);
    ApplicableBound(rules, inspection.inspectionType);
    r := RuleEvaluationResult(|rules|, |passed|, |failed|, CountCritical(failed), failed, noneCritical);
  }

  /** Completing an inspection: evaluate its rules, raise a non-conformance
      when the verdict is a failure, then complete the record. Saving the
      record and publishing its events are left to the caller. */
  method CompleteInspection(inspection: InspectionRecord, rules: seq<ComplianceRule>)
    returns (verdict: RuleEvaluationResult)
    requires inspection.Valid() && inspection.result.Some?
    requires ApplicableEvaluable(rules, inspection.inspectionType)
    modifies inspection`domainEvents
    ensures inspection.Valid()
    ensures verdict.totalRules == |rules|
    ensures verdict.failedRuleDetails ==
              old(Outcome(rules, inspection.inspectionType, InspectionData(inspection), false))
    ensures verdict.passedRules ==
              old(|Outcome(rules, inspection.inspectionType, InspectionData(inspection), true)|)
    ensures verdict.failedRules == |verdict.failedRuleDetails|
    ensures verdict.criticalFailures == CountCritical(verdict.failedRuleDetails)
    ensures verdict.overallPassed <==>
              forall i :: 0 <= i < |verdict.failedRuleDetails| ==>
                verdict.failedRuleDetails[i].level != ComplianceLevel.CRITICAL
    ensures inspection.domainEvents == old(inspection.domainEvents) +
              (if verdict.overallPassed then []
               else [Events.NonConformanceCreated(inspection.id, "Compliance rule violations detected",
                                                  |inspection.defects|)]) +
              (if inspection.result == Some(QUARANTINE)
               then [Events.ComplianceViolation(inspection.id, "CRITICAL_DEFECT",
                                                "Critical defects found - item quarantined")]
               else []) +
              [Events.InspectionCompleted(inspection.id, inspection.inspectionType,
                                          inspection.result.value, inspection.defectsFound,
                                          inspection.itemsInspected)]
  {
    verdict := EvaluateRules(inspection, rules);
    ghost var before := inspection.domainEvents;
    if !verdict.overallPassed {
      inspection.CreateNonConformance("Compliance rule violations detected");
    }
    ghost var middle := inspection.domainEvents;
    assert middle == before + (if verdict.overallPassed then []
               else [Events.NonConformanceCreated(inspection.id, "Compliance rule violations detected",
                                                  |inspection.defects|)]);
    inspection.Complete();
  }
}

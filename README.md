# Quality inspection and compliance core, modelled in Dafny

This project models the decision core of a warehouse quality-inspection
service. An **inspection record** collects the defects found while
inspecting an item, order or shipment. Each defect's severity moves the
record's result through PASSED, CONDITIONAL, FAILED and QUARANTINE. Three
built-in checks (weight, temperature, barcode) create defects of their own.
Completing, raising a non-conformance and applying a correction each queue
domain events in an outbox, which the caller drains after saving the record.

Beside the record:

- **Compliance rules** are single-condition predicates such as
  `defectRate > 5`. They are evaluated against an eight-field snapshot of
  the record.
- The **rule evaluation engine** splits the rules for an inspection's type
  into passed and failed, counts them, and gives a verdict that fails only
  on a CRITICAL failure.
- **Statistical process control** computes control limits at three standard
  deviations, applies three Western Electric rules (a point beyond the
  limits, nine points on one side of the mean, six points in a strict
  trend) and classifies process capability from Cp and Cpk.
- The **sampling strategies** choose which item numbers to inspect.

Files:

- `types.dfy` (module `QualityTypes`): the enumerations, `Option` for a
  nullable reference, and `Instant`.
- `events.dfy` (module `Events`): one `Event` constructor per domain event
  class.
- `defect.dfy` (module `Defects`): the defect value, its severity
  predicates, and its builder and setters.
- `inspection.dfy` (module `Inspection`): the result transition, the defects
  the checks build, and the class `InspectionRecord`.
- `compliance_rule.dfy` (module `Compliance`): the rule and its evaluation.
- `rule_evaluation.dfy` (module `RuleEvaluation`): the snapshot, the
  evaluation loop, and the completion sequence of the application service.
- `spc.dfy` (module `Spc`): statistics, violation detection and capability.
- `sampling.dfy` (module `Sampling`): the sampling rule.

Java doubles are modelled as exact `real`, and Java `int` as unbounded
`int`. A nullable Java reference is an `Option` for the defect's fields
and for the record's result, times, barcode and correction action. The
record's inspection type, a rule's `applicableTo` and the expected
barcode are never null in the model; "## Left out" says what the source
does with a null there. Clock readings, random UUIDs and formatted
description texts are parameters of the methods that use them. Source paths below are
relative to the repository root.

Four behaviours of the code are easy to misread, and the model keeps
each one as the code has it:

- A HIGH defect takes a quarantined record back to FAILED, so QUARANTINE is
  not a final state: the HIGH branch at
  `src/main/java/com/paklog/quality/domain/aggregate/InspectionRecord.java:89-90` does not look at the current result
  (`Inspection.OneDefectStep`, `Inspection.FailedIff`).
- A condition written with `>=` behaves as `>`, and one written with `<=`
  (and no `>`) behaves as `<`. The substring tests for `>` and `<` at
  `src/main/java/com/paklog/quality/domain/aggregate/ComplianceRule.java:60-63` come before the tests for `>=` and `<=`
  at lines 64-67, and every text containing `>=` contains `>`
  (`Compliance.TwoCharOperatorsContainOneChar`, `Compliance.NumericOutcome`,
  `Compliance.GreaterOrEqualAtThresholdFails`).
- Evaluating a rule returns whether its condition holds
  (`src/main/java/com/paklog/quality/domain/aggregate/ComplianceRule.java:60-61`), so a rule `defectRate > 5` passes at a
  defect rate of 10 (`Compliance.NumericOutcome`).
- The RANDOM sampling strategies use the same modulo test as the AQL ones
  (`src/main/java/com/paklog/quality/domain/valueobject/SamplingStrategy.java:28-30`),
  so they are systematic, not random (`Sampling.ShouldInspect`).

## Model

| member | source | states |
|---|---|---|
| Defects.Defect.RequiresImmediateAction | src/main/java/com/paklog/quality/domain/aggregate/Defect.java:23-29 | a CRITICAL defect always calls for immediate action, and a MAJOR one never does |
| Defects.Defect.IsCritical | src/main/java/com/paklog/quality/domain/aggregate/Defect.java:23-25 | the CRITICAL test; `RequiresImmediateAction` states that it implies immediate action |
| Defects.Get | src/main/java/com/paklog/quality/domain/aggregate/Defect.java:121-131 | each getter yields a value tagged with the field it is named after; with `GetAssignRoundTrip` and `Assign`, that value is the defect's own |
| Defects.GetAssignRoundTrip | src/main/java/com/paklog/quality/domain/aggregate/Defect.java:121-144 | setting a field to what its getter reads leaves the defect unchanged, so a getter returns exactly the field's value |
| Defects.Assign | src/main/java/com/paklog/quality/domain/aggregate/Defect.java:134-144 | a setter makes its own field read the new value and leaves every other field unchanged |
| Defects.BuiltFieldIsLastGiven | src/main/java/com/paklog/quality/domain/aggregate/Defect.java:103-117 | every field of the built defect is the value last given for it, or the builder default (null, quantity 0) when none was given |
| Defects.Built | src/main/java/com/paklog/quality/domain/aggregate/Defect.java:103-117 | no calls give the all-default defect, and the last call's field reads the last value given; `BuiltFieldIsLastGiven` covers every field |
| Defects.Builder.constructor | src/main/java/com/paklog/quality/domain/aggregate/Defect.java:31-46 | a new builder holds the all-default draft and has recorded no calls |
| Defects.Builder.Set | src/main/java/com/paklog/quality/domain/aggregate/Defect.java:48-101 | one builder call records its value, sets its field and changes no other field |
| Defects.Builder.Build | src/main/java/com/paklog/quality/domain/aggregate/Defect.java:103-117 | build yields the defect determined by the calls made so far |
| Inspection.OneDefectStep | src/main/java/com/paklog/quality/domain/aggregate/InspectionRecord.java:80-93 | CRITICAL quarantines from any state; HIGH fails from any state, QUARANTINE included; no defect leaves a performed record PASSED; every other step never lowers the result |
| Inspection.NextResult | src/main/java/com/paklog/quality/domain/aggregate/InspectionRecord.java:80-93 | the one-defect transition; `OneDefectStep` states its cases and `ResultOfDefects` the result of a whole defect list |
| Inspection.ResultOfDefects | src/main/java/com/paklog/quality/domain/aggregate/InspectionRecord.java:70-94 | after perform, the result is PASSED iff there are no defects; CONDITIONAL iff there are defects and none is HIGH or CRITICAL; QUARANTINE iff some CRITICAL defect has no later HIGH one; FAILED iff some HIGH defect has no later CRITICAL one |
| Inspection.PassedOnlyWithoutDefects | src/main/java/com/paklog/quality/domain/aggregate/InspectionRecord.java:89-93 | after perform, the result is always set, and it is PASSED exactly when no defect was added |
| Inspection.ConditionalIff | src/main/java/com/paklog/quality/domain/aggregate/InspectionRecord.java:89-93 | the result is CONDITIONAL exactly when there are defects and none needs immediate action |
| Inspection.QuarantineIff | src/main/java/com/paklog/quality/domain/aggregate/InspectionRecord.java:80-90 | the result is QUARANTINE exactly when some CRITICAL defect is followed by no HIGH defect |
| Inspection.FailedIff | src/main/java/com/paklog/quality/domain/aggregate/InspectionRecord.java:80-90 | the result is FAILED exactly when some HIGH defect is followed by no CRITICAL defect |
| Inspection.WeightDeviation | src/main/java/com/paklog/quality/domain/aggregate/InspectionRecord.java:98 | the percentage deviation is never negative |
| Inspection.WeightCheckByCrossMultiplying | src/main/java/com/paklog/quality/domain/aggregate/InspectionRecord.java:97-100 | the weight check fires iff both weights are positive and the absolute difference times 100 exceeds the tolerance times the expected weight |
| Inspection.WeightDefectFields | src/main/java/com/paklog/quality/domain/aggregate/InspectionRecord.java:101-108 | the weight check builds a defect with its id, WEIGHT_DISCREPANCY, MEDIUM, its description, quantity 1 and its time, and every other field null |
| Inspection.TemperatureDefectFields | src/main/java/com/paklog/quality/domain/aggregate/InspectionRecord.java:117-125 | the temperature check builds a defect with its id, TEMPERATURE_VIOLATION, CRITICAL, its description, quantity 1 and its time, and every other field null |
| Inspection.BarcodeDefectFields | src/main/java/com/paklog/quality/domain/aggregate/InspectionRecord.java:135-142 | the barcode check builds a defect with its id, BARCODE_UNREADABLE, MAJOR, the fixed mismatch text, quantity 1 and its time, and every other field null |
| Inspection.BuiltInOrder | src/main/java/com/paklog/quality/domain/aggregate/InspectionRecord.java:101-108 | a chain of six builder calls applies them to the default draft in order |
| Inspection.InspectionRecord.constructor | src/main/java/com/paklog/quality/domain/aggregate/InspectionRecord.java:18-66 | a new record holds the given fields, has no result, no defects and no events, and satisfies the record invariant |
| Inspection.InspectionRecord.Perform | src/main/java/com/paklog/quality/domain/aggregate/InspectionRecord.java:70-73 | stamps the time and sets the result to PASSED; nothing else changes |
| Inspection.InspectionRecord.AddDefect | src/main/java/com/paklog/quality/domain/aggregate/InspectionRecord.java:75-94 | appends the defect and adds 1 to defectsFound, keeping defectsFound equal to the number of defects; moves the result one step; a performed record is no longer PASSED; exactly one DefectDetected event with the defect's type, severity and description is raised iff the defect is CRITICAL |
| Inspection.InspectionRecord.ValidateWeight | src/main/java/com/paklog/quality/domain/aggregate/InspectionRecord.java:96-113 | adds exactly one MEDIUM weight-discrepancy defect iff both weights are positive and the deviation exceeds the tolerance; otherwise the record is unchanged; no event |
| Inspection.InspectionRecord.ValidateTemperature | src/main/java/com/paklog/quality/domain/aggregate/InspectionRecord.java:115-129 | strictly outside [min, max] adds one CRITICAL temperature defect, quarantines the record and raises DefectDetected; at or inside the bounds nothing changes |
| Inspection.InspectionRecord.ValidateBarcode | src/main/java/com/paklog/quality/domain/aggregate/InspectionRecord.java:131-146 | barcodeVerified becomes whether the barcodes are equal; exactly on a mismatch one MAJOR barcode defect is added |
| Inspection.InspectionRecord.Complete | src/main/java/com/paklog/quality/domain/aggregate/InspectionRecord.java:148-165 | appends a CRITICAL_DEFECT compliance violation iff the record is quarantined, then InspectionCompleted with type, result and counts; the result and the defects are unchanged |
| Inspection.InspectionRecord.CreateNonConformance | src/main/java/com/paklog/quality/domain/aggregate/InspectionRecord.java:167-173 | appends one NonConformanceCreated event whose defect count is the number of defects; nothing else changes |
| Inspection.InspectionRecord.ApplyCorrection | src/main/java/com/paklog/quality/domain/aggregate/InspectionRecord.java:175-184 | records the action and its time and appends one CorrectiveActionTaken event with both |
| Inspection.InspectionRecord.DefectRate | src/main/java/com/paklog/quality/domain/aggregate/InspectionRecord.java:186-188 | 0 when no item was inspected, else the rate times the items inspected is 100 times the defects found |
| Inspection.InspectionRecord.HasPhotos | src/main/java/com/paklog/quality/domain/aggregate/InspectionRecord.java:190-192 | holds iff at least one photo is attached |
| Inspection.InspectionRecord.RequiresPhotos | src/main/java/com/paklog/quality/domain/aggregate/InspectionRecord.java:194-196 | photos are required iff some defect was found |
| Inspection.InspectionRecord.GetDomainEvents | src/main/java/com/paklog/quality/domain/aggregate/InspectionRecord.java:202-204 | returns the queued events and leaves the outbox as it is |
| Inspection.InspectionRecord.ClearDomainEvents | src/main/java/com/paklog/quality/domain/aggregate/InspectionRecord.java:206-208 | empties the outbox, so clearing twice is the same as once; nothing else changes |
| Compliance.FieldName | src/main/java/com/paklog/quality/domain/aggregate/ComplianceRule.java:50 | the looked-up field is the longest space-free prefix of the condition, ended by a space or by the end of the text |
| Compliance.OperatorFreeOutcome | src/main/java/com/paklog/quality/domain/aggregate/ComplianceRule.java:43-73 | an inactive rule passes every input; a missing field passes iff the rule is optional; a boolean value always passes |
| Compliance.NumericOutcome | src/main/java/com/paklog/quality/domain/aggregate/ComplianceRule.java:57-73 | for a numeric value: with `>` or `>=` the rule passes iff value > threshold; with `<` or `<=` and no `>`, iff value < threshold; with only `==`, iff the values are within 0.001; with no operator it passes |
| Compliance.Evaluate | src/main/java/com/paklog/quality/domain/aggregate/ComplianceRule.java:42-74 | the rule predicate; `OperatorFreeOutcome` and `NumericOutcome` state its outcome in every case |
| Compliance.TwoCharOperatorsContainOneChar | src/main/java/com/paklog/quality/domain/aggregate/ComplianceRule.java:60-67 | a condition containing `>=` contains `>`, and one containing `<=` contains `<`, so the `>=` and `<=` branches can never decide |
| Compliance.GreaterOrEqualAtThresholdFails | src/main/java/com/paklog/quality/domain/aggregate/ComplianceRule.java:60-65 | `defectRate >= 5` with a defect rate of exactly 5 fails |
| RuleEvaluation.InspectionDataKeys | src/main/java/com/paklog/quality/domain/service/RuleEvaluationService.java:64-77 | the snapshot has exactly the eight named keys |
| RuleEvaluation.InspectionData | src/main/java/com/paklog/quality/domain/service/RuleEvaluationService.java:64-77 | the eight-field snapshot; `InspectionDataKeys` and `InspectionDataValues` state its keys and values |
| RuleEvaluation.InspectionDataValues | src/main/java/com/paklog/quality/domain/service/RuleEvaluationService.java:67-74 | six keys hold the record's numbers (defectRate from the rate computation) and barcodeVerified and hasPhotos hold flags |
| RuleEvaluation.Outcome | src/main/java/com/paklog/quality/domain/service/RuleEvaluationService.java:29-40 | each selected rule comes from the input, applies to the inspection's type and evaluates to the requested outcome |
| RuleEvaluation.NoCriticalCounted | src/main/java/com/paklog/quality/domain/service/RuleEvaluationService.java:52-57 | the CRITICAL count is at most the number of rules, and it is 0 iff no rule is CRITICAL |
| RuleEvaluation.PassedAndFailedPartition | src/main/java/com/paklog/quality/domain/service/RuleEvaluationService.java:29-46 | every applicable rule is either passed or failed and skipped rules are neither: passed plus failed is the number of applicable rules |
| RuleEvaluation.ApplicableBound | src/main/java/com/paklog/quality/domain/service/RuleEvaluationService.java:29-32 | the applicable rules are at most all rules, and all of them exactly when every rule applies |
| RuleEvaluation.OutcomeExtend | src/main/java/com/paklog/quality/domain/service/RuleEvaluationService.java:29-46 | one more rule adds at most that rule to the passed or the failed list |
| RuleEvaluation.SplitByOutcome | src/main/java/com/paklog/quality/domain/service/RuleEvaluationService.java:26-46 | the loop's passed and failed lists are exactly the applicable rules that evaluate true and false, in input order |
| RuleEvaluation.EvaluateRules | src/main/java/com/paklog/quality/domain/service/RuleEvaluationService.java:21-59 | totalRules counts every input rule; passed plus failed is at most totalRules, and equal to it exactly when every rule applies to the inspection's type; the failed list is exactly the applicable rules that evaluate false, in input order; the counts match the lists; the verdict passes iff no failed rule is CRITICAL |
| RuleEvaluation.CompleteInspection | src/main/java/com/paklog/quality/application/service/QualityApplicationService.java:70-78 | the verdict is the one `EvaluateRules` gives for the record before completion (total, counts, failed list, and a pass iff no failed rule is CRITICAL); a NonConformanceCreated event is queued exactly when the verdict fails, then the completion events follow |
| Sampling.Ceil | src/main/java/com/paklog/quality/domain/valueobject/SamplingStrategy.java:24 | the result is the least integer not below its argument |
| Sampling.Interval | src/main/java/com/paklog/quality/domain/valueobject/SamplingStrategy.java:5-9 | ceil(100 / rate) is 1, 40, 25, 10 and 4 for the five strategies |
| Sampling.JavaRem | src/main/java/com/paklog/quality/domain/valueobject/SamplingStrategy.java:25 | the truncating remainder lies strictly between -b and b, agrees with the Euclidean one on non-negative numbers, and is never positive on negative ones |
| Sampling.JavaRemZero | src/main/java/com/paklog/quality/domain/valueobject/SamplingStrategy.java:25-30 | the truncating remainder is 0 exactly when the Euclidean one is |
| Sampling.ShouldInspect | src/main/java/com/paklog/quality/domain/valueobject/SamplingStrategy.java:17-31 | FULL_INSPECTION inspects every item; every other strategy inspects item n iff n is a multiple of its interval |
| Sampling.Periodic | src/main/java/com/paklog/quality/domain/valueobject/SamplingStrategy.java:17-31 | item 0 is always inspected; the decision repeats with the interval and does not depend on the total |
| Sampling.InspectedFraction | src/main/java/com/paklog/quality/domain/valueobject/SamplingStrategy.java:24-30 | of the first n items exactly ceil(n / interval) are inspected |
| Spc.SquaredDeviations | src/main/java/com/paklog/quality/domain/service/StatisticalProcessControlService.java:142-143 | the sum of squared deviations is never negative |
| Spc.Variance | src/main/java/com/paklog/quality/domain/service/StatisticalProcessControlService.java:141-148 | the population variance is never negative, so a standard deviation exists |
| Spc.Mean | src/main/java/com/paklog/quality/domain/service/StatisticalProcessControlService.java:134-139 | 0 for an empty series; otherwise the mean times the number of points is the sum |
| Spc.MeanBetweenBounds | src/main/java/com/paklog/quality/domain/service/StatisticalProcessControlService.java:134-139 | the mean of a non-empty series lies between any lower and upper bound of its points |
| Spc.OutOfLimitsMeaning | src/main/java/com/paklog/quality/domain/service/StatisticalProcessControlService.java:84-89 | rule 1 reports exactly the points above the upper or below the lower limit, each once, by increasing index |
| Spc.OutOfLimitsPoints | src/main/java/com/paklog/quality/domain/service/StatisticalProcessControlService.java:84-89 | rule 1; `OutOfLimitsMeaning` states exactly which entries it yields |
| Spc.RunLengthMeaning | src/main/java/com/paklog/quality/domain/service/StatisticalProcessControlService.java:91-108 | the run counter is at least m exactly when the last m points lie on the same side of the mean (a point equal to the mean is not above it) |
| Spc.RunRule | src/main/java/com/paklog/quality/domain/service/StatisticalProcessControlService.java:91-108 | rule 2; `RunLengthMeaning` and `ScanSameSideRun` state that it reports a run exactly when nine consecutive points lie on one side |
| Spc.TrendsBeforeSound | src/main/java/com/paklog/quality/domain/service/StatisticalProcessControlService.java:111-129 | every trend entry reports a scanned window whose six points rise or fall strictly, labelled increasing exactly when they rise |
| Spc.TrendsBeforeComplete | src/main/java/com/paklog/quality/domain/service/StatisticalProcessControlService.java:111-129 | every scanned window whose six points rise or fall strictly is reported, with its direction |
| Spc.TrendsBeforeOrdered | src/main/java/com/paklog/quality/domain/service/StatisticalProcessControlService.java:111-129 | the windows scanned so far are reported by strictly increasing start index |
| Spc.TrendRuleMeaning | src/main/java/com/paklog/quality/domain/service/StatisticalProcessControlService.java:111-129 | rule 3 reports nothing for fewer than six points; every entry reports a strictly monotone window with its direction, every such window is reported, and the start indices strictly increase, so each window appears once, in scan order |
| Spc.TrendRule | src/main/java/com/paklog/quality/domain/service/StatisticalProcessControlService.java:111-129 | rule 3; `TrendRuleMeaning` states that it is sound and complete |
| Spc.TrendDirectionsExclusive | src/main/java/com/paklog/quality/domain/service/StatisticalProcessControlService.java:113-123 | no window both rises and falls |
| Spc.OutOfLimitsFirst | src/main/java/com/paklog/quality/domain/service/StatisticalProcessControlService.java:81-132 | every rule 1 entry precedes every rule 2 and rule 3 entry |
| Spc.ScanOutOfLimits | src/main/java/com/paklog/quality/domain/service/StatisticalProcessControlService.java:84-89 | the rule 1 loop yields exactly the rule 1 entries |
| Spc.ScanSameSideRun | src/main/java/com/paklog/quality/domain/service/StatisticalProcessControlService.java:91-108 | the counting loop with its early exit finds a run iff nine consecutive points lie on one side of the mean |
| Spc.ScanTrends | src/main/java/com/paklog/quality/domain/service/StatisticalProcessControlService.java:110-129 | the window loop with its two flags yields exactly the rule 3 entries |
| Spc.DetectViolations | src/main/java/com/paklog/quality/domain/service/StatisticalProcessControlService.java:81-132 | the violations are the rule 1 entries, then at most one run entry, then the trend entries |
| Spc.CalculateSPCMetrics | src/main/java/com/paklog/quality/domain/service/StatisticalProcessControlService.java:19-40 | an empty series gives the default metrics, which are not in control; otherwise the limits are mean ± 3σ with the lower one ≤ mean ≤ the upper one, and the process is in control iff no violation is found |
| Spc.CpkAtMostCp | src/main/java/com/paklog/quality/domain/service/StatisticalProcessControlService.java:55-62 | the two one-sided indices average to Cp, so Cpk ≤ Cp, with equality iff the mean is centred between the limits |
| Spc.Cp | src/main/java/com/paklog/quality/domain/service/StatisticalProcessControlService.java:55-56 | Cp times six standard deviations is the specification width |
| Spc.Cpk | src/main/java/com/paklog/quality/domain/service/StatisticalProcessControlService.java:58-62 | Cpk times three standard deviations is the smaller of the two distances from the mean to a specification limit |
| Spc.ClassifyCapability | src/main/java/com/paklog/quality/domain/service/StatisticalProcessControlService.java:150-160 | the result is the best class whose threshold (2.0, 1.33, 1.0) Cpk meets |
| Spc.ClassificationMonotone | src/main/java/com/paklog/quality/domain/service/StatisticalProcessControlService.java:150-160 | a larger Cpk never gets a worse class |
| Spc.CalculateCapability | src/main/java/com/paklog/quality/domain/service/StatisticalProcessControlService.java:45-76 | an empty series gives all zeros and no class; otherwise cp is Cp and cpk is Cpk of the limits, the mean and σ, Cpk ≤ Cp with equality iff centred, and the class is that of Cpk |
| Spc.CenteredExample | src/main/java/com/paklog/quality/domain/service/StatisticalProcessControlService.java:52-65 | mean 10 and σ 1 against limits 5 and 15 give Cp = Cpk = 5/3, classified ADEQUATE |

## Left out

- Persistence, publishing and wiring are not modelled. This covers the Mongo repositories, the Kafka event publisher, the HTTP controller and the application class. Of the application service, only the ordering inside `completeInspection` is modelled. Loading, saving, publishing and clearing stay out.
- Clock readings (`Instant.now()`) and random UUIDs are method parameters, because they are not deterministic.
- The formatted defect descriptions (`%.2f`, `%.1f`) are parameters, because formatting floating-point text is outside the model.
- Violation messages are datatype values, not formatted strings.
- Each event's own id and occurrence time are not modelled.
- `AuditPerformedEvent` is a constructor of `Event` only; no modelled code raises it.
- The `compliance/domain/aggregate/ComplianceRule.java` stub has no logic and is not modelled.
- Record fields that no modelled logic reads are left out: inspection number, order, shipment, item, inspector, notes, version and timestamps. The same goes for the Lombok setters on the record.
- Defects are values, so aliasing between a `Defect` object held in a record and one changed elsewhere through a setter is not modelled.
- The snapshot map is one map display rather than a sequence of `put` calls; the keys are distinct, so the result is the same.
- `Math.sqrt` is not modelled. The standard deviation is a parameter whose square is the population variance.
- Spc.CalculateCapability: requires σ > 0 for a non-empty series, where the source divides by zero and yields Infinity or NaN under IEEE arithmetic.
- Spc.DetectViolations: the three rule loops are separate methods and the violation list is built from their results. The source appends to one list in place.
- RuleEvaluation.EvaluateRules: the rule loop is the separate method `SplitByOutcome`, run on the snapshot; the source runs it inline.
- Floating-point rounding is not modelled: doubles are exact reals, so a comparison such as the 0.001 tolerance or a limit check can differ from IEEE results at the last bit.
- Inspection.InspectionRecord.AddDefect: requires a CRITICAL defect to have a type, where the source throws a NullPointerException.
- Inspection.InspectionRecord.Complete: requires a result, where the source throws a NullPointerException.
- Compliance.Evaluate: requires an active rule's condition not to be made only of spaces, where the source throws an ArrayIndexOutOfBoundsException. A null condition or a null data map is not modelled; `threshold` is a primitive double.
- The record's inspection type is never null in the model. In the source a null type makes every rule's `applicableTo.equals(type)` false, so `evaluateRules` skips every rule (RuleEvaluationService.java:30), and `complete` then throws a NullPointerException (InspectionRecord.java:160).
- A rule's `applicableTo` is never null in the model. In the source a null one throws a NullPointerException in `evaluateRules` (RuleEvaluationService.java:30).
- The expected barcode passed to `validateBarcode` is never null in the model. In the source a null one throws a NullPointerException (InspectionRecord.java:132). A null recorded barcode is `None` and counts as a mismatch, as in the source.
- Sampling.ShouldInspect: Java `int` overflow is not modelled; item numbers are unbounded integers.

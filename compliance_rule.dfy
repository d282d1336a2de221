/** A compliance rule and its single-condition predicate over a snapshot
    of inspection data.

    The condition is text such as `defectRate > 5`: the field is the text
    before the first space, the operator is found by substring tests in a
    fixed order, and the threshold is a separate field of the rule. Because
    `>` and `<` are tested before `>=` and `<=`, the latter two tests can
    never decide a result. */
module Compliance {
  import opened QualityTypes

  /** A value in the inspection snapshot: a number (Java Double or Integer)
      or a flag (Java Boolean). */
  datatype Value = Number(x: real) | Flag(b: bool)

  datatype ComplianceRule = ComplianceRule(
    id: string,
    ruleName: string,
    ruleCode: string,
    description: string,
    level: ComplianceLevel,
    applicableTo: InspectionType,
    condition: string,
    threshold: real,
    active: bool,
    mandatory: bool)

  /** A non-empty text made only of spaces: splitting it on " " yields no
      part at all, so asking for the first part throws. */
  predicate OnlySpaces(text: string) {
    |text| > 0 && text[0] == ' ' && (|text| == 1 || OnlySpaces(text[1..]))
  }

  /** A rule whose evaluation does not throw. */
  predicate Evaluable(rule: ComplianceRule) {
    rule.active ==> !OnlySpaces(rule.condition)
  }

  /** The first part of `condition` split on " ": the longest prefix
      without a space. */
  function FieldName(condition: string): (field: string)
    ensures |field| <= |condition| && field == condition[..|field|]
    ensures forall i :: 0 <= i < |field| ==> field[i] != ' '
    ensures |field| < |condition| ==> condition[|field|] == ' '
  {
    if condition == [] || condition[0] == ' ' then []
    else [condition[0]] + FieldName(condition[1..])
  }

  /** `token` occurs in `text` starting at position `i`. */
  predicate OccursAt(text: string, token: string, i: int) {
    0 <= i && i + |token| <= |text| && text[i..i + |token|] == token
  }

  /** Java's `String.contains`. */
  predicate Contains(text: string, token: string) {
    exists i | 0 <= i <= |text| :: OccursAt(text, token, i)
  }

  /** Whether the inspection data satisfies the rule. */
  function Evaluate(rule: ComplianceRule, data: map<string, Value>): bool
    requires Evaluable(rule)
  {
    if !rule.active then
      true
    else
      var field := FieldName(rule.condition);
      if field !in data then
        !rule.mandatory
      else
        match data[field]
        case Number(x) =>
          var c := rule.condition;
          if Contains(c, ">") then x > rule.threshold
          else if Contains(c, "<") then x < rule.threshold
          else if Contains(c, ">=") then x >= rule.threshold
          else if Contains(c, "<=") then x <= rule.threshold
          else if Contains(c, "==") then Abs(x - rule.threshold) < 0.001
          else true
        case Flag(_) => true
  }

  /** A text containing `>=` contains `>`, and one containing `<=` contains
      `<`: the `>=` and `<=` tests are reached only when they must fail. */
  lemma TwoCharOperatorsContainOneChar(text: string)
    ensures Contains(text, ">=") ==> Contains(text, ">")
    ensures Contains(text, "<=") ==> Contains(text, "<")
  {
    FirstCharOccurs(text, '>', '=');
    FirstCharOccurs(text, '<', '=');
  }

  lemma FirstCharOccurs(text: string, a: char, b: char)
    ensures Contains(text, [a, b]) ==> Contains(text, [a])
  {
    if Contains(text, [a, b]) {
      var i :| 0 <= i <= |text| && OccursAt(text, [a, b], i);
      assert text[i] == text[i..i + 2][0] == a;
      assert text[i..i + 1] == [a];
      assert OccursAt(text, [a], i);
    }
  }

  /** The outcome of an active rule whose field holds the number `x`, by
      the operators its condition contains. A condition written with `>=`
      behaves as `>` (a value equal to the threshold fails), and one
      written with `<=` and no `>` behaves as `<`. */
  lemma NumericOutcome(rule: ComplianceRule, data: map<string, Value>, x: real)
    requires rule.active && !OnlySpaces(rule.condition)
    requires FieldName(rule.condition) in data && data[FieldName(rule.condition)] == Number(x)
    ensures Contains(rule.condition, ">") || Contains(rule.condition, ">=") ==>
              (Evaluate(rule, data) <==> x > rule.threshold)
    ensures !Contains(rule.condition, ">") &&
            (Contains(rule.condition, "<") || Contains(rule.condition, "<=")) ==>
              (Evaluate(rule, data) <==> x < rule.threshold)
    ensures !Contains(rule.condition, ">") && !Contains(rule.condition, "<") &&
            Contains(rule.condition, "==") ==>
              (Evaluate(rule, data) <==> Abs(x - rule.threshold) < 0.001)
    ensures (!Contains(rule.condition, ">") && !Contains(rule.condition, "<") &&
             !Contains(rule.condition, "==")) ==> Evaluate(rule, data)
  {
    TwoCharOperatorsContainOneChar(rule.condition);
  }

  /** The outcomes that do not depend on the operator: an inactive rule
      passes, a missing field passes exactly when the rule is optional, and
      a non-numeric value passes. */
  lemma OperatorFreeOutcome(rule: ComplianceRule, data: map<string, Value>)
    requires Evaluable(rule)
    ensures !rule.active ==> Evaluate(rule, data)
    ensures rule.active && FieldName(rule.condition) !in data ==>
              (Evaluate(rule, data) <==> !rule.mandatory)
    ensures (rule.active && FieldName(rule.condition) in data &&
             data[FieldName(rule.condition)].Flag?) ==> Evaluate(rule, data)
  {
  }

  /** `defectRate >= 5` with a defect rate of exactly 5 fails, although
      the condition reads as satisfied. */
  lemma GreaterOrEqualAtThresholdFails(rule: ComplianceRule)
    requires rule.active && rule.condition == "defectRate >= 5" && rule.threshold == 5.0
    ensures !Evaluate(rule, map["defectRate" := Number(5.0)])
  {
    var c := rule.condition;
    assert FieldName(c) == "defectRate" by {
      assert c[10] == ' ';
      assert forall i :: 0 <= i < 10 ==> c[i] != ' ';
    }
    assert OccursAt(c, ">", 11);
  }
}

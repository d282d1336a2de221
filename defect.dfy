/** A defect: one non-conformance found during an inspection, its two
    severity predicates, and the builder that assembles it field by field.

    A Java `Defect` is a mutable object with a setter per field; here it is
    a value, and a setter is `Assign`, which yields the defect with that one
    field replaced. */
module Defects {
  import opened QualityTypes

  datatype Defect = Defect(
    defectId: Option<string>,
    defectType: Option<DefectType>,
    severity: Option<SeverityLevel>,
    description: Option<string>,
    location: Option<string>,
    quantity: int,
    photoUrl: Option<string>,
    reportedBy: Option<string>,
    reportedAt: Option<Instant>,
    rootCause: Option<string>,
    correctionAction: Option<string>)
  {
    /** True exactly for a CRITICAL defect. */
    predicate IsCritical() {
      severity == Some(SeverityLevel.CRITICAL)
    }

    /** CRITICAL and HIGH defects call for immediate action; MAJOR does not. */
    predicate RequiresImmediateAction()
      ensures IsCritical() ==> RequiresImmediateAction()
      ensures RequiresImmediateAction() ==> severity != Some(SeverityLevel.MAJOR)
    {
      severity == Some(SeverityLevel.CRITICAL) || severity == Some(SeverityLevel.HIGH)
    }
  }

  /** The defect a fresh builder holds: every reference null, quantity 0. */
  function Unset(): Defect {
    Defect(None, None, None, None, None, 0, None, None, None, None, None)
  }

  /** The eleven fields of a defect. */
  datatype Field =
    | DefectIdField | TypeField | SeverityField | DescriptionField | LocationField
    | QuantityField | PhotoUrlField | ReportedByField | ReportedAtField
    | RootCauseField | CorrectionActionField

  /** A value for one field, tagged with that field: the argument of one
      builder call or one setter call. */
  datatype FieldValue =
    | DefectIdValue(id: Option<string>)
    | TypeValue(kind: Option<DefectType>)
    | SeverityValue(level: Option<SeverityLevel>)
    | DescriptionValue(text: Option<string>)
    | LocationValue(text: Option<string>)
    | QuantityValue(count: int)
    | PhotoUrlValue(text: Option<string>)
    | ReportedByValue(text: Option<string>)
    | ReportedAtValue(at: Option<Instant>)
    | RootCauseValue(text: Option<string>)
    | CorrectionActionValue(text: Option<string>)

  function FieldOf(v: FieldValue): Field {
    match v
    case DefectIdValue(_) => DefectIdField
    case TypeValue(_) => TypeField
    case SeverityValue(_) => SeverityField
    case DescriptionValue(_) => DescriptionField
    case LocationValue(_) => LocationField
    case QuantityValue(_) => QuantityField
    case PhotoUrlValue(_) => PhotoUrlField
    case ReportedByValue(_) => ReportedByField
    case ReportedAtValue(_) => ReportedAtField
    case RootCauseValue(_) => RootCauseField
    case CorrectionActionValue(_) => CorrectionActionField
  }

  /** The getter of field `f`. */
  function Get(d: Defect, f: Field): (v: FieldValue)
    ensures FieldOf(v) == f
  {
    match f
    case DefectIdField => DefectIdValue(d.defectId)
    case TypeField => TypeValue(d.defectType)
    case SeverityField => SeverityValue(d.severity)
    case DescriptionField => DescriptionValue(d.description)
    case LocationField => LocationValue(d.location)
    case QuantityField => QuantityValue(d.quantity)
    case PhotoUrlField => PhotoUrlValue(d.photoUrl)
    case ReportedByField => ReportedByValue(d.reportedBy)
    case ReportedAtField => ReportedAtValue(d.reportedAt)
    case RootCauseField => RootCauseValue(d.rootCause)
    case CorrectionActionField => CorrectionActionValue(d.correctionAction)
  }

  /** Setting a field to the value its getter reads back leaves the defect
      as it was: together with `Assign`'s contract, the getter of `f`
      returns `d`'s own value of `f`. */
  lemma GetAssignRoundTrip(d: Defect, f: Field)
    ensures Assign(d, Get(d, f)) == d
  {
  }

  /** The setter (and the builder call) for the field `v` is tagged with:
      that field now reads `v` and every other field reads as before. */
  function Assign(d: Defect, v: FieldValue): (r: Defect)
    ensures Get(r, FieldOf(v)) == v
    ensures forall f :: f != FieldOf(v) ==> Get(r, f) == Get(d, f)
  {
    match v
    case DefectIdValue(x) => d.(defectId := x)
    case TypeValue(x) => d.(defectType := x)
    case SeverityValue(x) => d.(severity := x)
    case DescriptionValue(x) => d.(description := x)
    case LocationValue(x) => d.(location := x)
    case QuantityValue(x) => d.(quantity := x)
    case PhotoUrlValue(x) => d.(photoUrl := x)
    case ReportedByValue(x) => d.(reportedBy := x)
    case ReportedAtValue(x) => d.(reportedAt := x)
    case RootCauseValue(x) => d.(rootCause := x)
    case CorrectionActionValue(x) => d.(correctionAction := x)
  }

  /** The defect a builder yields after the calls `given`, in order. */
  function Built(given: seq<FieldValue>): (d: Defect)
    ensures given == [] ==> d == Unset()
    ensures given != [] ==> Get(d, FieldOf(given[|given| - 1])) == given[|given| - 1]
  {
    if given == [] then Unset()
    else Assign(Built(given[..|given| - 1]), given[|given| - 1])
  }

  /** Each field of the built defect is the value last given for it, or
      the builder's default when no call named that field. */
  lemma {:induction false} BuiltFieldIsLastGiven(given: seq<FieldValue>, f: Field)
    ensures (forall i :: 0 <= i < |given| ==> FieldOf(given[i]) != f) ==>
              Get(Built(given), f) == Get(Unset(), f)
    ensures forall i :: 0 <= i < |given| && FieldOf(given[i]) == f &&
                        (forall j :: i < j < |given| ==> FieldOf(given[j]) != f) ==>
              Get(Built(given), f) == given[i]
  {
    if given != [] {
      var n := |given| - 1;
      var prefix := given[..n];
      assert Built(given) == Assign(Built(prefix), given[n]);
      BuiltFieldIsLastGiven(prefix, f);
      assert forall i :: 0 <= i < n ==> prefix[i] == given[i];
      if FieldOf(given[n]) != f {
        assert Get(Built(given), f) == Get(Built(prefix), f);
      }
    }
  }

  /** The builder of a defect: each call replaces one field of the draft,
      and `Build` copies the draft out. */
  class Builder {
    var draft: Defect
    /** The calls made so far, in order. */
    ghost var given: seq<FieldValue>

    ghost predicate Valid()
      reads this
    {
      draft == Built(given)
    }

    constructor ()
      ensures Valid() && given == [] && draft == Unset()
    {
      draft := Unset();
      given := [];
    }

    /** One builder call, such as `severity(s)` or `quantity(n)`. */
    method Set(v: FieldValue)
      requires Valid()
      modifies this
      ensures Valid() && given == old(given) + [v]
      ensures Get(draft, FieldOf(v)) == v
      ensures forall f :: f != FieldOf(v) ==> Get(draft, f) == Get(old(draft), f)
    {
      draft := Assign(draft, v);
      given := given + [v];
      assert given[..|given| - 1] == old(given);
    }

    method Build() returns (d: Defect)
      requires Valid()
      ensures d == Built(given)
    {
      d := draft;
    }
  }
}

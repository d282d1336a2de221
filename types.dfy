/** Value types shared by the inspection, rule and sampling components:
    the enumerations of the domain and an Option standing for a Java
    reference that may be null. */
module QualityTypes {

  /** A Java reference that may be null. */
  datatype Option<+T> = None | Some(value: T)

  /** A point in time, as seconds since the epoch; clocks are parameters. */
  type Instant = int

  /** The absolute value of a Java double, as `Math.abs`. */
  function Abs(x: real): real {
    if x < 0.0 then -x else x
  }

  /** Severity of a defect, in escalation order as declared. */
  datatype SeverityLevel = LOW | MEDIUM | HIGH | MAJOR | CRITICAL

  /** Outcome classification of an inspection. */
  datatype InspectionResult = PASSED | CONDITIONAL | FAILED | QUARANTINE

  /** Kind of inspection; a compliance rule applies to exactly one kind. */
  datatype InspectionType = RECEIVING | OUTBOUND | RANDOM_AUDIT

  /** Level of a compliance rule; only CRITICAL failures block the overall verdict. */
  datatype ComplianceLevel = INFO | WARNING | CRITICAL

  /** Kind of non-conformance a defect records. */
  datatype DefectType =
    | DAMAGED
    | INCORRECT_QUANTITY
    | WRONG_ITEM
    | MISSING_LABEL
    | EXPIRED
    | CONTAMINATED
    | PACKAGING_DEFECT
    | TEMPERATURE_VIOLATION
    | WEIGHT_DISCREPANCY
    | BARCODE_UNREADABLE
    | OTHER
}

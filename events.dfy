/** The domain facts an inspection record queues in its outbox, one
    constructor per event class, with the fields its builder takes.
    The event id and occurrence time every event gets on creation are
    not modelled. */
module Events {
  import opened QualityTypes

  datatype Event =
    | DefectDetected(inspectionId: string, defectType: DefectType,
                     severity: SeverityLevel, defectDescription: Option<string>)
    | ComplianceViolation(inspectionId: string, violationType: string, description: string)
    | NonConformanceCreated(inspectionId: string, description: string, defectCount: int)
    | InspectionCompleted(inspectionId: string, inspectionType: InspectionType,
                          result: InspectionResult, defectsFound: int, itemsInspected: int)
    | CorrectiveActionTaken(inspectionId: string, action: string, completedAt: Instant)
    | AuditPerformed(auditId: string, auditType: string, findingsCount: int)
}

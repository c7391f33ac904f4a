/** A clinical visit (`Encounter` row) and its HL7 FHIR R4 Encounter resource. */
module Encounters {
  import opened Wrappers
  import opened Text
  import opened Dates
  import opened JsonTree

  /** The statuses the status column documents; all are R4 `Encounter.status` codes. */
  const EncounterStatuses: set<string> :=
    {"planned", "arrived", "triaged", "in-progress", "onleave", "finished", "cancelled"}

  const ActiveStatuses: set<string> := {"arrived", "triaged", "in-progress"}

  const FinishedStatus: string := "finished"

  /** Display names of the HL7 v3-ActCode encounter classes. */
  const ClassDisplays: map<string, string> := map[
    "AMB" := "Ambulatory",
    "EMER" := "Emergency",
    "HH" := "Home Health",
    "IMP" := "Inpatient Encounter",
    "ACUTE" := "Inpatient Acute",
    "NONAC" := "Inpatient Non-acute",
    "PRENC" := "Pre-admission",
    "SS" := "Short Stay",
    "VR" := "Virtual"
  ]

  /** Display names of the HL7 v3-ActPriority codes. */
  const PriorityDisplays: map<string, string> := map[
    "routine" := "Routine",
    "urgent" := "Urgent",
    "asap" := "ASAP",
    "stat" := "Stat"
  ]

  const EncounterIdSystem: string := "https://clinified.com/encounter"
  const FhirIdSystem: string := "https://clinified.com/fhir"
  const ActCodeSystem: string := "http://terminology.hl7.org/CodeSystem/v3-ActCode"
  const ActPrioritySystem: string := "http://terminology.hl7.org/CodeSystem/v3-ActPriority"
  const ParticipationTypeSystem: string := "http://terminology.hl7.org/CodeSystem/v3-ParticipationType"
  const SnomedSystem: string := "http://snomed.info/sct"
  const ChiefComplaintUrl: string := "https://clinified.com/extension/chief-complaint"
  const VitalSignsUrl: string := "https://clinified.com/extension/vital-signs"
  const PaymentStatusUrl: string := "https://clinified.com/extension/payment-status"

  /** Python's library renderings that the serialiser calls: `datetime.isoformat()`
      and `str()` of a dict or list. */
  datatype Formatters = Formatters(isoformat: Timestamp -> string, repr: Json -> string)

  /** The columns of a persisted encounter row that the core reads. UUID columns
      hold their canonical text, so `str(id)` is the field itself. */
  datatype Encounter = Encounter(
    id: string,
    tenantId: string,
    patientId: string,
    practitionerId: string,
    encounterId: string,
    fhirEncounterId: Option<string>,
    status: string,
    classCode: string,
    priority: string,
    startDate: Timestamp,
    endDate: Option<Timestamp>,
    durationMinutes: Option<int>,
    reasonCode: seq<map<string, Json>>,
    diagnosis: seq<map<string, Json>>,
    chiefComplaint: Option<string>,
    vitalSigns: Json,
    paymentStatus: string)
  {
    /** `is_active`: the visit is under way. An active visit is never a
        completed one, and its status is one the column documents. */
    function IsActive(): (r: bool)
      ensures r ==> !IsCompleted()
      ensures r ==> status in EncounterStatuses
    {
      status in ActiveStatuses
    }

    /** `is_completed`: the visit is finished. */
    function IsCompleted(): (r: bool)
      ensures r ==> status in EncounterStatuses && status !in ActiveStatuses
    {
      status == FinishedStatus
    }

    /** `duration` in minutes. With an end date it is the elapsed time divided
        by 60 seconds, truncated toward zero (so a negative span rounds up, not
        down); otherwise the stored `duration_minutes`, with None read as 0. */
    function Duration(): (r: int)
      ensures endDate.Some? ==>
        var span := endDate.value.micros - startDate.micros;
        (span >= 0 ==> 0 <= r && r * MicrosPerMinute <= span < (r + 1) * MicrosPerMinute) &&
        (span < 0 ==> r <= 0 && (r - 1) * MicrosPerMinute < span <= r * MicrosPerMinute)
      ensures endDate.None? ==> r == (if durationMinutes.Some? then durationMinutes.value else 0)
    {
      if endDate.Some? then
        var span := endDate.value.micros - startDate.micros;
        if span >= 0 then span / MicrosPerMinute else -((-span) / MicrosPerMinute)
      else if durationMinutes.Some? then durationMinutes.value
      else 0
    }

    /** `_get_class_display`: the display of a known class code; any other code
        is returned as it is. No display coincides with its code, so the result
        equals the code exactly when the code is unknown. */
    function ClassDisplay(): (r: string)
      ensures classCode in ClassDisplays ==> r == ClassDisplays[classCode]
      ensures r == classCode <==> classCode !in ClassDisplays
    {
      if classCode in ClassDisplays then ClassDisplays[classCode] else classCode
    }

    /** `_get_priority_display`: as `ClassDisplay`, for the priority codes. */
    function PriorityDisplay(): (r: string)
      ensures priority in PriorityDisplays ==> r == PriorityDisplays[priority]
      ensures r == priority <==> priority !in PriorityDisplays
    {
      if priority in PriorityDisplays then PriorityDisplays[priority] else priority
    }

    /** `to_fhir_encounter`: the FHIR R4 Encounter resource for this row. The
        lemmas after this datatype state what each part of it holds. */
    function ToFhir(fmt: Formatters): (r: Json)
      ensures Field(r, "resourceType") == JStr("Encounter") && Field(r, "id") == JStr(id)
    {
      JObj(map[
        "resourceType" := JStr("Encounter"),
        "id" := JStr(id),
        "identifier" := JArr(
          [SystemValue(EncounterIdSystem, encounterId)]
          + (if Truthy(fhirEncounterId) then [SystemValue(FhirIdSystem, fhirEncounterId.value)] else [])),
        "status" := JStr(status),
        "class" := JObj(map[
          "system" := JStr(ActCodeSystem),
          "code" := JStr(classCode),
          "display" := JStr(ClassDisplay())]),
        "priority" := JObj(map[
          "coding" := JArr([Coding(ActPrioritySystem, JStr(priority), JStr(PriorityDisplay()))])]),
        "subject" := Reference("Patient/" + patientId),
        "participant" := JArr([JObj(map[
          "type" := JArr([JObj(map[
            "coding" := JArr([Coding(ParticipationTypeSystem, JStr("ATND"), JStr("attender"))])])]),
          "individual" := Reference("Practitioner/" + practitionerId)])]),
        "period" := JObj(map[
          "start" := JStr(fmt.isoformat(startDate)),
          "end" := if endDate.Some? then JStr(fmt.isoformat(endDate.value)) else JNull]),
        "reasonCode" := JArr(seq(|reasonCode|, i requires 0 <= i < |reasonCode| => ReasonEntry(reasonCode[i]))),
        "reasonReference" := JArr(seq(|diagnosis|, i requires 0 <= i < |diagnosis| =>
          Reference("Condition/" + PyStr(DictGet(diagnosis[i], "condition_id"), fmt.repr)))),
        "serviceProvider" := Reference("Organization/" + tenantId),
        "extension" := JArr([
          if Truthy(chiefComplaint) then Extension(ChiefComplaintUrl, chiefComplaint.value) else JNull,
          if JsonTruthy(vitalSigns) then Extension(VitalSignsUrl, PyStr(vitalSigns, fmt.repr)) else JNull,
          Extension(PaymentStatusUrl, paymentStatus)])
      ])
    }
  }

  function Coding(system: string, code: Json, display: Json): Json
  {
    JObj(map["system" := JStr(system), "code" := code, "display" := display])
  }

  function Reference(target: string): Json
  {
    JObj(map["reference" := JStr(target)])
  }

  /** One `reasonCode` entry: a SNOMED coding built from the stored dict. */
  function ReasonEntry(code: map<string, Json>): Json
  {
    JObj(map[
      "coding" := JArr([Coding(SnomedSystem, DictGet(code, "code"), DictGet(code, "display"))]),
      "text" := DictGet(code, "text")])
  }

  /** identifier: the internal id first, then the FHIR id exactly when it is truthy. */
  lemma FhirIdentifiers(e: Encounter, fmt: Formatters)
    ensures var ids := Field(e.ToFhir(fmt), "identifier");
      && Length(ids) == (if Truthy(e.fhirEncounterId) then 2 else 1)
      && Field(Item(ids, 0), "system") == JStr(EncounterIdSystem)
      && Field(Item(ids, 0), "value") == JStr(e.encounterId)
      && (Length(ids) == 2 ==>
            Field(Item(ids, 1), "system") == JStr(FhirIdSystem)
            && Field(Item(ids, 1), "value") == OptStr(e.fhirEncounterId))
  {
  }

  /** The coded parts: status as stored, class and priority with their displays. */
  lemma FhirCodes(e: Encounter, fmt: Formatters)
    ensures var r := e.ToFhir(fmt);
      && Field(r, "status") == JStr(e.status)
      && Field(Field(r, "class"), "code") == JStr(e.classCode)
      && Field(Field(r, "class"), "display") == JStr(e.ClassDisplay())
      && Field(Item(Field(Field(r, "priority"), "coding"), 0), "code") == JStr(e.priority)
      && Field(Item(Field(Field(r, "priority"), "coding"), 0), "display") == JStr(e.PriorityDisplay())
  {
    var r := e.ToFhir(fmt);
    assert Field(r, "class") == JObj(map[
      "system" := JStr(ActCodeSystem), "code" := JStr(e.classCode), "display" := JStr(e.ClassDisplay())]);
    assert Field(r, "priority") == JObj(map[
      "coding" := JArr([Coding(ActPrioritySystem, JStr(e.priority), JStr(e.PriorityDisplay()))])]);
  }

  /** subject, participant and serviceProvider reference the patient, the
      practitioner and the tenant organisation. */
  lemma FhirReferences(e: Encounter, fmt: Formatters)
    ensures var r := e.ToFhir(fmt);
      && Field(Field(r, "subject"), "reference") == JStr("Patient/" + e.patientId)
      && Field(Field(Item(Field(r, "participant"), 0), "individual"), "reference")
         == JStr("Practitioner/" + e.practitionerId)
      && Field(Field(r, "serviceProvider"), "reference") == JStr("Organization/" + e.tenantId)
  {
  }

  /** period: the start is always rendered; the end is null exactly when there is no end date. */
  lemma FhirPeriod(e: Encounter, fmt: Formatters)
    ensures var period := Field(e.ToFhir(fmt), "period");
      && Field(period, "start") == JStr(fmt.isoformat(e.startDate))
      && (Field(period, "end") == JNull <==> e.endDate.None?)
  {
  }

  /** reasonCode: one SNOMED entry per stored reason, in order. */
  lemma FhirReasonCodes(e: Encounter, fmt: Formatters)
    ensures var rc := Field(e.ToFhir(fmt), "reasonCode");
      && rc.JArr? && Length(rc) == |e.reasonCode|
      && forall i :: 0 <= i < |e.reasonCode| ==>
           && Field(Item(rc, i), "text") == DictGet(e.reasonCode[i], "text")
           && Field(Item(Field(Item(rc, i), "coding"), 0), "system") == JStr(SnomedSystem)
           && Field(Item(Field(Item(rc, i), "coding"), 0), "code") == DictGet(e.reasonCode[i], "code")
           && Field(Item(Field(Item(rc, i), "coding"), 0), "display") == DictGet(e.reasonCode[i], "display")
  {
  }

  /** reasonReference: one Condition reference per diagnosis, in order. */
  lemma FhirReasonReferences(e: Encounter, fmt: Formatters)
    ensures var rr := Field(e.ToFhir(fmt), "reasonReference");
      && rr.JArr? && Length(rr) == |e.diagnosis|
      && forall i :: 0 <= i < |e.diagnosis| ==>
           Field(Item(rr, i), "reference")
           == JStr("Condition/" + PyStr(DictGet(e.diagnosis[i], "condition_id"), fmt.repr))
  {
  }

  /** extension: always three slots; the first two are null exactly when their
      source is falsy, the third always carries the payment status. */
  lemma FhirExtensions(e: Encounter, fmt: Formatters)
    ensures var ext := Field(e.ToFhir(fmt), "extension");
      && Length(ext) == 3
      && (Item(ext, 0) == JNull <==> !Truthy(e.chiefComplaint))
      && (Truthy(e.chiefComplaint) ==> Field(Item(ext, 0), "valueString") == JStr(e.chiefComplaint.value))
      && (Item(ext, 1) == JNull <==> !JsonTruthy(e.vitalSigns))
      && (JsonTruthy(e.vitalSigns) ==>
            Field(Item(ext, 1), "valueString") == JStr(PyStr(e.vitalSigns, fmt.repr)))
      && Field(Item(ext, 2), "url") == JStr(PaymentStatusUrl)
      && Field(Item(ext, 2), "valueString") == JStr(e.paymentStatus)
  {
  }

  /** `is_active` and `is_completed` never hold together. */
  lemma ActiveAndCompletedExclusive(e: Encounter)
    ensures !(e.IsActive() && e.IsCompleted())
  {
  }
}

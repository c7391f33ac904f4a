/** A patient record (`Patient` row): derived name and age, and its HL7 FHIR R4
    Patient resource. */
module Patients {
  import opened Wrappers
  import opened Text
  import opened Dates
  import opened JsonTree
  import opened Naming

  const PatientIdSystem: string := "https://clinified.com/patient"
  const HealthIdSystem: string := "https://abdm.gov.in/health-id"
  const ContactRoleSystem: string := "http://terminology.hl7.org/CodeSystem/v2-0131"
  const BloodGroupUrl: string := "https://clinified.com/extension/blood-group"
  const AllergiesUrl: string := "https://clinified.com/extension/allergies"

  /** The columns of a persisted patient row that the core reads. */
  datatype Patient = Patient(
    id: string,
    tenantId: string,
    patientId: string,
    abhaId: Option<string>,
    firstName: string,
    lastName: string,
    middleName: Option<string>,
    dateOfBirth: CalendarDate,
    gender: string,
    phone: Option<string>,
    email: Option<string>,
    address: Option<string>,
    city: Option<string>,
    state: Option<string>,
    pincode: Option<string>,
    country: string,
    emergencyContactName: Option<string>,
    emergencyContactPhone: Option<string>,
    bloodGroup: Option<string>,
    allergies: seq<string>,
    isActive: bool,
    isDeceased: bool)
  {
    /** `full_name`. */
    function FullName(): (r: string)
      ensures r == Naming.FullName(firstName, middleName, lastName)
      ensures Truthy(middleName) ==> |r| == |firstName| + |middleName.value| + |lastName| + 2
      ensures !Truthy(middleName) ==> |r| == |firstName| + |lastName| + 1
    {
      Naming.FullName(firstName, middleName, lastName)
    }

    /** `age` on the calendar day `today` (the clock reading is a parameter):
        the difference of the years, less one while this year's birthday
        (month, day) is still ahead. It is the number of completed years: the
        `r`-th birthday has been reached and the next one has not. */
    function Age(today: Date): (r: int)
      ensures !Before(today, Anniversary(dateOfBirth, r))
      ensures Before(today, Anniversary(dateOfBirth, r + 1))
    {
      today.year - dateOfBirth.year - (if MonthDayBefore(today, dateOfBirth) then 1 else 0)
    }

    /** `to_fhir_patient`: the FHIR R4 Patient resource for this row. The lemmas
        after this datatype state what each part of it holds. */
    function ToFhir(): (r: Json)
      ensures Field(r, "resourceType") == JStr("Patient") && Field(r, "id") == JStr(id)
    {
      JObj(map[
        "resourceType" := JStr("Patient"),
        "id" := JStr(id),
        "identifier" := JArr(
          [SystemValue(PatientIdSystem, patientId)]
          + (if Truthy(abhaId) then [SystemValue(HealthIdSystem, abhaId.value)] else [])),
        "active" := JBool(isActive && !isDeceased),
        "name" := JArr([JObj(map[
          "use" := JStr("official"),
          "text" := JStr(FullName()),
          "family" := JStr(lastName),
          "given" := StrList(GivenNames(firstName, middleName))])]),
        "telecom" := JArr([
          if Truthy(phone) then SystemValue("phone", phone.value) else JNull,
          if Truthy(email) then SystemValue("email", email.value) else JNull]),
        "gender" := JStr(gender),
        "birthDate" := JStr(IsoFormat(dateOfBirth)),
        "address" := JArr(
          if Truthy(address) then
            [JObj(map[
              "use" := JStr("home"),
              "text" := JStr(address.value),
              "city" := OptStr(city),
              "state" := OptStr(state),
              "postalCode" := OptStr(pincode),
              "country" := JStr(country)])]
          else []),
        "contact" := JArr(
          if Truthy(emergencyContactName) then
            [JObj(map[
              "relationship" := JArr([JObj(map[
                "coding" := JArr([JObj(map[
                  "system" := JStr(ContactRoleSystem),
                  "code" := JStr("C"),
                  "display" := JStr("Emergency Contact")])])])]),
              "name" := JObj(map["text" := JStr(emergencyContactName.value)]),
              "telecom" := JArr(
                if Truthy(emergencyContactPhone) then [SystemValue("phone", emergencyContactPhone.value)]
                else [])])]
          else []),
        "extension" := JArr([
          if Truthy(bloodGroup) then Extension(BloodGroupUrl, bloodGroup.value) else JNull,
          Extension(AllergiesUrl, AllergiesText(allergies))])
      ])
    }
  }

  /** The `k`-th birthday of someone born on `dob`, as a (year, month, day) triple. */
  function Anniversary(dob: Date, k: int): Date
  {
    Date(dob.year + k, dob.month, dob.day)
  }

  /** The completed-years reading pins the age down: no other number of years
      has its birthday reached and the next one still ahead. */
  lemma AgeIsCompletedYears(p: Patient, today: Date, k: int)
    ensures k == p.Age(today) <==>
      !Before(today, Anniversary(p.dateOfBirth, k)) && Before(today, Anniversary(p.dateOfBirth, k + 1))
  {
  }

  /** Nobody has a negative age on or after their date of birth. */
  lemma AgeNonNegative(p: Patient, today: Date)
    requires !Before(today, p.dateOfBirth)
    ensures p.Age(today) >= 0
  {
  }

  /** The age goes up by exactly one on the birthday: on any earlier day of
      the same year it is one less than on the birthday itself. For someone
      born on 29 February the birthday of a common year is no calendar day;
      `AgeStepsOnFirstOfMarch` covers that case. */
  lemma AgeStepsOnBirthday(p: Patient, y: int, before: Date)
    requires before.year == y && MonthDayBefore(before, p.dateOfBirth)
    ensures p.Age(Date(y, p.dateOfBirth.month, p.dateOfBirth.day)) == y - p.dateOfBirth.year
    ensures p.Age(before) == y - p.dateOfBirth.year - 1
  {
  }

  /** Born on 29 February: in a common year the age is still one less on
      28 February and steps up on 1 March. */
  lemma AgeStepsOnFirstOfMarch(p: Patient, y: int)
    requires p.dateOfBirth.month == 2 && p.dateOfBirth.day == 29 && !IsLeapYear(y)
    ensures p.Age(Date(y, 2, 28)) == y - p.dateOfBirth.year - 1
    ensures p.Age(Date(y, 3, 1)) == y - p.dateOfBirth.year
  {
  }

  /** The age never decreases as time goes on. */
  lemma AgeMonotone(p: Patient, t1: Date, t2: Date)
    requires !Before(t2, t1)
    ensures p.Age(t1) <= p.Age(t2)
  {
  }

  /** A list of strings as a JSON list. */
  function StrList(xs: seq<string>): (r: Json)
    ensures r.JArr? && |r.items| == |xs|
    ensures forall i :: 0 <= i < |xs| ==> r.items[i] == JStr(xs[i])
  {
    JArr(seq(|xs|, i requires 0 <= i < |xs| => JStr(xs[i])))
  }

  /** The allergies extension text: `", ".join(allergies)`, "" when there are
      none. The guard on the empty list changes nothing, and the text is empty
      only for no allergies or a single empty one. */
  function AllergiesText(allergies: seq<string>): (r: string)
    ensures r == Join(allergies, ", ")
    ensures r == "" <==> |allergies| == 0 || (|allergies| == 1 && allergies[0] == "")
  {
    if |allergies| > 0 then Join(allergies, ", ") else ""
  }

  /** identifier: the internal id first, then the ABDM health id exactly when it is truthy. */
  lemma FhirIdentifiers(p: Patient)
    ensures var ids := Field(p.ToFhir(), "identifier");
      && Length(ids) == (if Truthy(p.abhaId) then 2 else 1)
      && Field(Item(ids, 0), "system") == JStr(PatientIdSystem)
      && Field(Item(ids, 0), "value") == JStr(p.patientId)
      && (Length(ids) == 2 ==>
            Field(Item(ids, 1), "system") == JStr(HealthIdSystem)
            && Field(Item(ids, 1), "value") == OptStr(p.abhaId))
  {
  }

  /** active: the record is active and the patient is not deceased. */
  lemma FhirActive(p: Patient)
    ensures Field(p.ToFhir(), "active") == JBool(p.isActive && !p.isDeceased)
  {
  }

  /** name: one official name whose text is the full name, whose family is the
      last name and whose given names are the first and (when truthy) middle name. */
  lemma FhirName(p: Patient)
    ensures var names := Field(p.ToFhir(), "name");
      && Length(names) == 1
      && Field(Item(names, 0), "text") == JStr(p.FullName())
      && Field(Item(names, 0), "family") == JStr(p.lastName)
      && var given := Field(Item(names, 0), "given");
         && Length(given) == (if Truthy(p.middleName) then 2 else 1)
         && Item(given, 0) == JStr(p.firstName)
         && (Truthy(p.middleName) ==> Item(given, 1) == JStr(p.middleName.value))
  {
  }

  /** The name text agrees with its parts: when no part contains a space, the
      text splits on spaces into the given names followed by the family name. */
  lemma FhirNameTextAgreesWithParts(p: Patient)
    requires ' ' !in p.firstName && ' ' !in p.lastName
    requires p.middleName.Some? ==> ' ' !in p.middleName.value
    ensures Split(p.FullName(), ' ') == GivenNames(p.firstName, p.middleName) + [p.lastName]
  {
    FullNameWords(p.firstName, p.middleName, p.lastName);
  }

  /** telecom: always two slots, phone then email, each null exactly when its column is falsy. */
  lemma FhirTelecom(p: Patient)
    ensures var tel := Field(p.ToFhir(), "telecom");
      && Length(tel) == 2
      && (Item(tel, 0) == JNull <==> !Truthy(p.phone))
      && (Truthy(p.phone) ==> Field(Item(tel, 0), "value") == JStr(p.phone.value))
      && (Item(tel, 1) == JNull <==> !Truthy(p.email))
      && (Truthy(p.email) ==> Field(Item(tel, 1), "value") == JStr(p.email.value))
  {
  }

  /** birthDate: the ISO form of the date of birth, from which the date can be read back. */
  lemma FhirBirthDate(p: Patient)
    ensures Field(p.ToFhir(), "birthDate") == JStr(IsoFormat(p.dateOfBirth))
    ensures ParseIsoDate(Field(p.ToFhir(), "birthDate").s) == Some(p.dateOfBirth)
  {
    IsoFormatRoundTrip(p.dateOfBirth);
  }

  /** address: empty exactly when the address text is falsy, else one home address. */
  lemma FhirAddress(p: Patient)
    ensures var addr := Field(p.ToFhir(), "address");
      && addr.JArr?
      && (Length(addr) == 0 <==> !Truthy(p.address))
      && (Truthy(p.address) ==>
            Length(addr) == 1
            && Field(Item(addr, 0), "use") == JStr("home")
            && Field(Item(addr, 0), "text") == JStr(p.address.value)
            && Field(Item(addr, 0), "postalCode") == OptStr(p.pincode))
  {
  }

  /** contact: empty exactly when there is no emergency contact name; the
      contact's telecom is non-empty exactly when the contact phone is truthy. */
  lemma FhirContact(p: Patient)
    ensures var contact := Field(p.ToFhir(), "contact");
      && contact.JArr?
      && (Length(contact) == 0 <==> !Truthy(p.emergencyContactName))
      && (Truthy(p.emergencyContactName) ==>
            Length(contact) == 1
            && Field(Field(Item(contact, 0), "name"), "text") == JStr(p.emergencyContactName.value)
            && (Length(Field(Item(contact, 0), "telecom")) > 0 <==> Truthy(p.emergencyContactPhone)))
  {
  }

  /** extension: the blood-group slot is null exactly when the blood group is
      falsy; the allergies slot is always there and holds the ", "-joined list. */
  lemma FhirExtensions(p: Patient)
    ensures var ext := Field(p.ToFhir(), "extension");
      && Length(ext) == 2
      && (Item(ext, 0) == JNull <==> !Truthy(p.bloodGroup))
      && (Truthy(p.bloodGroup) ==> Field(Item(ext, 0), "valueString") == JStr(p.bloodGroup.value))
      && Field(Item(ext, 1), "valueString") == JStr(Join(p.allergies, ", "))
      && (p.allergies == [] ==> Field(Item(ext, 1), "valueString") == JStr(""))
  {
  }
}

# Clinic backend model

A Dafny model of the domain logic of a clinic-management backend (FastAPI with
SQLAlchemy models and Pydantic schemas). What is modelled is the part of the
backend that computes rather than wires things together:

- the **Encounter** model (a clinical visit): its status predicates, its
  duration in minutes, the display names of its HL7 v3-ActCode class and
  v3-ActPriority codes, and its serialisation to an HL7 FHIR R4 `Encounter`
  resource;
- the **Patient** model: full name, age on a given day, and its serialisation
  to a FHIR R4 `Patient` resource;
- the **User** model: full name and role checks;
- the **authentication schemas**: the Pydantic field validators (password
  lengths, password confirmation, the `+91` phone prefix), the registration
  roles default, and `UserResponse.from_user`, the public view of a user;
- the **settings**: the `SECRET_KEY` and `DATABASE_URL` validators and the
  default values.

All of it is pure, so it is modelled as datatypes, functions and lemmas.

Modelling conventions:

- A row is modelled as the database returns it after insertion: a column with
  a default (`status`, `class_code`, `priority`, `payment_status`, `is_active`,
  `is_deceased`, `country`, `roles`, `allergies`, `reason_code`, `diagnosis`,
  `vital_signs`, ...) holds a value; a nullable column without a default is an
  `Option`. Python truthiness is explicit: `Text.Truthy` is false for None
  and for "", and an empty list or dict is recognised by `== []` / `== map[]`.
- UUID columns hold their canonical text, so `str(self.id)` is the field.
- Python dicts and lists, and the FHIR output, are `JsonTree.Json` trees. A
  dict is a `map`, read back with `Field` / `Item` / `Length`.
- A `datetime` is a `Dates.Timestamp` (microseconds since the epoch). A `date`
  is a `Dates.CalendarDate`. `date.isoformat()` is written out (`IsoFormat`)
  together with its inverse (`ParseIsoDate`).
- The library renderings `datetime.isoformat()` and `str()` of a dict or list
  are parameters of the encounter serialiser (`Encounters.Formatters`).
- The current day used by `Patient.age` is a parameter.
- A Pydantic model is built field by field in declaration order. Each failing
  validator adds a `FieldError`. A later validator sees an earlier field only
  if that field passed.

Modules: `Wrappers` (Option, Result, FieldError), `Text` (truthiness, join,
split, decimal digits), `Dates`, `JsonTree`, `Naming` (the shared full-name
rule), `Encounters`, `Patients`, `Users`, `AuthSchemas`, `Config`.

## Model

| member | source | states |
|---|---|---|
| `Encounters.Encounter.IsActive` | backend/app/models/encounter.py:88-91 | An active encounter (arrived, triaged or in progress) is never completed. Its status is one of the documented R4 statuses. |
| `Encounters.Encounter.IsCompleted` | backend/app/models/encounter.py:93-96 | A completed encounter has a documented status that is not an active one. |
| `Encounters.ActiveAndCompletedExclusive` | backend/app/models/encounter.py:88-96 | `is_active` and `is_completed` never hold together. |
| `Encounters.Encounter.Duration` | backend/app/models/encounter.py:98-103 | With an end date: the elapsed time over 60 s, truncated toward zero. This is characterised by bounds, so a negative span rounds up, not down. Without one: `duration_minutes`, with None giving 0. Always a number. |
| `Encounters.Encounter.ClassDisplay` | backend/app/models/encounter.py:194-207 | A known v3-ActCode class gets its display from the nine-entry table. The result equals the code exactly when the code is unknown. |
| `Encounters.Encounter.PriorityDisplay` | backend/app/models/encounter.py:209-217 | The same for the four v3-ActPriority codes. |
| `Encounters.Encounter.ToFhir` | backend/app/models/encounter.py:105-109 | The resource is an `Encounter` whose id is the row id. |
| `Encounters.FhirIdentifiers` | backend/app/models/encounter.py:110-115 | The internal id comes first, under the clinic encounter system. There are 2 identifiers exactly when `fhir_encounter_id` is truthy, else 1. The second is that id under the clinic FHIR system. |
| `Encounters.FhirCodes` | backend/app/models/encounter.py:116-130 | Status is as stored. Class and priority carry their codes and displays. |
| `Encounters.FhirReferences` | backend/app/models/encounter.py:131-151 | subject, participant and serviceProvider reference the patient, the practitioner and the tenant. |
| `Encounters.FhirPeriod` | backend/app/models/encounter.py:152-155 | The start is the rendered start date. `period.end` is null exactly when there is no end date. |
| `Encounters.FhirReasonCodes` | backend/app/models/encounter.py:156-168 | One SNOMED entry per stored reason, in order, carrying that reason's code, display and text. Empty for no reasons. |
| `Encounters.FhirReasonReferences` | backend/app/models/encounter.py:169-174 | One `Condition/<id>` reference per diagnosis, in order. |
| `Encounters.FhirExtensions` | backend/app/models/encounter.py:178-191 | Exactly three slots. Slot 0 is null iff there is no chief complaint. Slot 1 is null iff the vital-signs value is falsy (None, or an empty dict or list); otherwise it carries `str()` of that value. Slot 2 always carries the payment status. |
| `JsonTree.PyStr` | backend/app/models/encounter.py:171 | What an f-string inserts for a JSON value: a string is itself, None is "None", a boolean is "True" or "False", and an integer is read back by `ParseInt`. |
| `Naming.FullName` | backend/app/models/patient.py:91-96 | "first middle last" when the middle name is truthy, else "first last". This is the space-join of the given names and the last name. |
| `Naming.GivenNames` | backend/app/models/patient.py:133 | `[first]`, plus the middle name exactly when it is truthy. |
| `Naming.FullNameWords` | backend/app/models/patient.py:126-133 | When no part contains a space, the full name splits on spaces back into the given names and then the family name. |
| `Patients.Patient.FullName` | backend/app/models/patient.py:91-96 | The shared full-name rule. Its length is the parts plus one or two spaces. |
| `Patients.Patient.Age` | backend/app/models/patient.py:98-104 | The number of completed years on `today`: the r-th birthday has been reached and the (r+1)-th has not. |
| `Patients.AgeIsCompletedYears` | backend/app/models/patient.py:98-104 | Both directions: `k` is the age iff the k-th birthday has been reached and the next has not. |
| `Patients.AgeNonNegative` | backend/app/models/patient.py:98-104 | The age is at least 0 on or after the date of birth. |
| `Patients.AgeStepsOnBirthday` | backend/app/models/patient.py:98-104 | The age goes up by exactly one on the birthday. |
| `Patients.AgeStepsOnFirstOfMarch` | backend/app/models/patient.py:98-104 | For someone born on 29 February, in a common year the age is still one less on 28 February and goes up on 1 March. |
| `Patients.AgeMonotone` | backend/app/models/patient.py:98-104 | The age never decreases as the day advances. |
| `Patients.Patient.ToFhir` | backend/app/models/patient.py:114-118 | The resource is a `Patient` whose id is the row id. |
| `Patients.FhirIdentifiers` | backend/app/models/patient.py:119-124 | The internal id comes first. There is an ABDM health-id entry exactly when `abha_id` is truthy. |
| `Patients.FhirActive` | backend/app/models/patient.py:125 | `active` is `is_active` and not `is_deceased`. |
| `Patients.FhirName` | backend/app/models/patient.py:126-133 | There is one name. Its text is the full name and its family is the last name. Its given names are the first name, plus the middle name iff it is truthy. |
| `Patients.FhirNameTextAgreesWithParts` | backend/app/models/patient.py:126-133 | For names without spaces, the name text splits into the given names followed by the family name. |
| `Patients.FhirTelecom` | backend/app/models/patient.py:134-137 | Exactly two slots. The phone slot is null iff the phone is falsy, and the email slot is null iff the email is falsy. |
| `Patients.FhirBirthDate` | backend/app/models/patient.py:139 | birthDate is the ISO date, and the date of birth can be parsed back from it. |
| `Dates.IsoFormat` | backend/app/models/patient.py:139 | `date.isoformat()` is ten characters with dashes at positions 4 and 7. |
| `Dates.IsoFormatRoundTrip` | backend/app/models/patient.py:139 | Parsing the ISO form of a date gives the date back. |
| `Patients.FhirAddress` | backend/app/models/patient.py:140-149 | `address` is empty iff the address text is falsy. Otherwise it has one home address carrying the text and postal code. |
| `Patients.FhirContact` | backend/app/models/patient.py:150-173 | `contact` is empty iff the emergency contact name is falsy. The contact's telecom is non-empty iff the contact phone is truthy. |
| `Patients.FhirExtensions` | backend/app/models/patient.py:174-183 | Two slots. The blood-group slot is null iff the blood group is falsy. The allergies value is the ", "-join of the allergies, which is "" for none. |
| `Patients.AllergiesText` | backend/app/models/patient.py:181 | The empty-list guard agrees with a plain join. The text is empty only for no allergies or a single empty one. |
| `Text.Join` | backend/app/models/patient.py:181 | `sep.join`: the length is the parts' lengths plus one separator between each pair. |
| `Users.User.FullName` | backend/app/models/user.py:71-76 | The same full-name rule as Patient. |
| `Users.User.HasAnyRole` | backend/app/models/user.py:97-99 | True iff some listed role is held (`has_role`, lines 93-95). False for an empty list. |
| `Users.User.IsDoctor` | backend/app/models/user.py:78-81 | Equals `has_role("doctor")` and `has_any_role(["doctor"])`. |
| `Users.User.IsNurse` | backend/app/models/user.py:83-86 | Equals `has_role("nurse")` and `has_any_role(["nurse"])`. |
| `Users.User.IsAdmin` | backend/app/models/user.py:88-91 | Equals `has_role("admin")` and `has_any_role(["admin"])`. |
| `Users.HasAnyRoleOfHeldRole` | backend/app/models/user.py:93-99 | If `has_role(r)` and r is listed, then `has_any_role` holds. |
| `Users.HasAnyRoleMonotone` | backend/app/models/user.py:97-99 | Asking about a superset of roles never turns `has_any_role` false. |
| `Users.HasAnyRoleAppend` | backend/app/models/user.py:97-99 | `has_any_role(a + b)` is `has_any_role(a) or has_any_role(b)`. |
| `AuthSchemas.LoginPassword` | backend/app/schemas/auth.py:28-32 | The login password is accepted, unchanged, iff it has at least 6 characters; otherwise it is rejected with `validate_password`'s message. |
| `AuthSchemas.NewPassword` | backend/app/schemas/auth.py:41-45 | The same rule with 8 characters. It is also `PasswordResetConfirm.new_password`'s rule (lines 148-152). Anything it accepts, the login rule accepts. |
| `AuthSchemas.ConfirmPassword` | backend/app/schemas/auth.py:47-51 | Rejected iff the password passed validation and differs from the confirmation. The check is skipped when the password failed. |
| `AuthSchemas.Phone` | backend/app/schemas/auth.py:53-57 | None and "" are accepted. Any other value must start with "+91". An accepted value is returned unchanged. |
| `AuthSchemas.ValidateRegister` | backend/app/schemas/auth.py:34-57 | Accepted iff the phone is acceptable, the password has 8+ characters and the confirmation matches. An accepted request keeps every field and defaults roles to ["staff"]. Each failure is reported, but a mismatch only when the password passed. |
| `AuthSchemas.ValidateResetConfirm` | backend/app/schemas/auth.py:142-158 | The same password and confirmation rules for a reset. |
| `AuthSchemas.ValidateUpdate` | backend/app/schemas/auth.py:160-179 | Accepted, unchanged, iff the phone passes the registration rule. |
| `AuthSchemas.UserResponse.FullName` | backend/app/schemas/auth.py:86-91 | The same full-name rule as User. |
| `AuthSchemas.FromUser` | backend/app/schemas/auth.py:93-121 | The response's full name, roles, email and id agree with the user's. |
| `AuthSchemas.FromUserIgnoresSecrets` | backend/app/schemas/auth.py:59-84 | Changing a user's password hash, MFA secret, tenant or username never changes the response. |
| `AuthSchemas.FromUserCopiesColumns` | backend/app/schemas/auth.py:96-121 | Every one of the response's 24 columns equals the user's column of the same name. |
| `AuthSchemas.FromUserDeterminesTheRest` | backend/app/schemas/auth.py:93-121 | Two users give the same response iff they agree on every column except those four, so no other column is lost. |
| `Config.ValidateSecretKey` | backend/app/core/config.py:78-82 | Rejected iff shorter than 32 characters. Otherwise returned unchanged. |
| `Config.ValidateDatabaseUrl` | backend/app/core/config.py:84-88 | Rejected iff empty. Otherwise returned unchanged. |
| `Config.LoadSettings` | backend/app/core/config.py:10-88 | Accepted iff both validators accept, with each failure reported. Defaults: access tokens 30 minutes, refresh tokens 7 days, `MAX_FILE_SIZE` 10485760, sync batch 100, 3 retries, 5 s delay, HS256. |

## Left out

- `Patient.bmi` (backend/app/models/patient.py:106-112): floating-point division and rounding.
- Offline synchronisation: no module of the backend implements it. The `SYNC_*` defaults are the only part present, and they are in `Config`.
- The HTTP layer is not part of this model: the authentication endpoints (which call services, repositories and JWT code that are not part of this model), application construction, middleware, logging, the database engine and session, and router wiring.
- Settings come from the environment, and `Settings()` reads it at import time. Upload-directory creation is also left out. `LoadSettings` takes the two required values and gives every other field its default; environment overrides of the defaults are not modelled. The optional credentials (ABDM, Razorpay, Twilio, SMTP host and login, all None by default) are not represented.
- SQLAlchemy column lengths, uniqueness, indexes, relationships and `__repr__`: enforced or produced by the library.
- Email-address checking (Pydantic `EmailStr`) and UUID parsing of `tenant_id`: library validators. Emails and ids are taken as already valid.
- `datetime.isoformat()` and `str()` of a dict or list are Python library formatting. They are parameters (`Encounters.Formatters`), not definitions.
- Dict key order in the FHIR output is not represented (a JSON object is a map).
- JSON floating-point numbers are not represented; `JNum` holds integers.
- A NULL stored in a column that has a default is not modelled. The `reason_code`, `diagnosis` and `allergies` columns are typed as lists. For them, NULL behaves exactly like the empty list, because both are falsy. `vital_signs` is any JSON value, so NULL, a dict or a list are all covered.
- Elements of a JSON column whose type makes Python raise are excluded by typing: a `reason_code` or `diagnosis` entry that is not a dict, a non-string allergy, or a `roles` column that is NULL.
- `Encounters.Encounter.Duration`: computed with exact integer arithmetic. Python goes through two floating-point roundings (`total_seconds()` and `/ 60`). These can change the truncated result only for spans of more than about 140 years.
- `Encounters.Encounter.Duration`: `start_date` is non-nullable, so `duration`'s test that it is set is always true and is not modelled.
- The login schema's email field, and the schemas without validators (`TokenResponse`, `RefreshTokenRequest`, `PasswordResetRequest`, the MFA requests), carry no logic.

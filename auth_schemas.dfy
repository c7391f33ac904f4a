/** The request and response schemas of the authentication API: the field
    validators (run in field order, each error collected, a later validator
    seeing only the earlier fields that passed), the registration roles
    default, and the public view of a user. */
module AuthSchemas {
  import opened Wrappers
  import opened Text
  import opened Dates
  import opened JsonTree
  import Naming
  import opened Users

  const LoginPasswordMinLength: nat := 6
  const PasswordMinLength: nat := 8
  const LoginPasswordTooShort: string := "Password must be at least 6 characters long"
  const PasswordTooShort: string := "Password must be at least 8 characters long"
  const PasswordsDoNotMatch: string := "Passwords do not match"
  const PhoneNotIndian: string := "Phone number must start with +91 for India"
  const IndiaPrefix: string := "+91"
  const DefaultRoles: seq<string> := ["staff"]

  /** `UserLogin.validate_password`: accepted unchanged iff at least 6 characters. */
  function LoginPassword(v: string): (r: Result<string, string>)
    ensures r.Ok? <==> |v| >= LoginPasswordMinLength
    ensures r.Ok? ==> r.value == v
    ensures r.Err? ==> r.error == LoginPasswordTooShort
  {
    if |v| < 6 then Err(LoginPasswordTooShort) else Ok(v)
  }

  /** `UserRegister.validate_password`, and `PasswordResetConfirm.validate_new_password`
      which has the same body: accepted unchanged iff at least 8 characters. */
  function NewPassword(v: string): (r: Result<string, string>)
    ensures r.Ok? <==> |v| >= PasswordMinLength
    ensures r.Ok? ==> r.value == v
    ensures r.Err? ==> r.error == PasswordTooShort
    ensures r.Ok? ==> LoginPassword(v).Ok?
  {
    if |v| < 8 then Err(PasswordTooShort) else Ok(v)
  }

  /** `validate_confirm_password`: `password` is what the password validator
      produced. A mismatch is reported only when the password itself passed. */
  function ConfirmPassword(password: Result<string, string>, confirm: string): (r: Result<string, string>)
    ensures r.Err? <==> password.Ok? && confirm != password.value
    ensures r.Ok? ==> r.value == confirm
    ensures r.Err? ==> r.error == PasswordsDoNotMatch
  {
    if password.Ok? && confirm != password.value then Err(PasswordsDoNotMatch) else Ok(confirm)
  }

  /** A phone number the schemas accept: None, empty, or starting with +91. */
  predicate PhoneAccepted(v: Option<string>)
  {
    v == None || v == Some("") || (|v.value| >= 3 && v.value[..3] == IndiaPrefix)
  }

  /** `validate_phone` (the same in `UserRegister` and `UserUpdate`). */
  function Phone(v: Option<string>): (r: Result<Option<string>, string>)
    ensures r.Ok? <==> PhoneAccepted(v)
    ensures r.Ok? ==> r.value == v
    ensures r.Err? ==> r.error == PhoneNotIndian
  {
    if Truthy(v) && !(IndiaPrefix <= v.value) then Err(PhoneNotIndian) else Ok(v)
  }

  /** The report entry for one field: none when its validator accepted it. */
  function ErrorsOf<T>(field: string, r: Result<T, string>): seq<FieldError>
  {
    if r.Err? then [FieldError(field, r.error)] else []
  }

  /** The fields a registration request carries; `roles` is None when not sent.
      The email is taken as already checked by the email type. */
  datatype RegisterRequest = RegisterRequest(
    email: string,
    firstName: string,
    lastName: string,
    middleName: Option<string>,
    phone: Option<string>,
    specialization: Option<string>,
    licenseNumber: Option<string>,
    registrationNumber: Option<string>,
    password: string,
    confirmPassword: string,
    tenantId: Option<string>,
    roles: Option<seq<string>>)

  /** A validated `UserRegister`. */
  datatype UserRegister = UserRegister(
    email: string,
    firstName: string,
    lastName: string,
    middleName: Option<string>,
    phone: Option<string>,
    specialization: Option<string>,
    licenseNumber: Option<string>,
    registrationNumber: Option<string>,
    password: string,
    confirmPassword: string,
    tenantId: Option<string>,
    roles: seq<string>)

  /** Building a `UserRegister`: the request is accepted exactly when the phone
      is acceptable, the password is long enough and the confirmation equals
      it; every failing check is reported, but a mismatch only when the
      password itself passed; roles default to ["staff"]. */
  function ValidateRegister(q: RegisterRequest): (r: Result<UserRegister, seq<FieldError>>)
    ensures r.Ok? <==>
      PhoneAccepted(q.phone) && |q.password| >= PasswordMinLength && q.confirmPassword == q.password
    ensures r.Ok? ==>
      r.value == UserRegister(q.email, q.firstName, q.lastName, q.middleName, q.phone,
                              q.specialization, q.licenseNumber, q.registrationNumber,
                              q.password, q.confirmPassword, q.tenantId,
                              if q.roles.Some? then q.roles.value else DefaultRoles)
    ensures r.Err? ==>
      && (FieldError("phone", PhoneNotIndian) in r.error <==> !PhoneAccepted(q.phone))
      && (FieldError("password", PasswordTooShort) in r.error <==> |q.password| < PasswordMinLength)
      && (FieldError("confirm_password", PasswordsDoNotMatch) in r.error <==>
            |q.password| >= PasswordMinLength && q.confirmPassword != q.password)
  {
    var phone := Phone(q.phone);
    var password := NewPassword(q.password);
    var confirm := ConfirmPassword(password, q.confirmPassword);
    var errors := ErrorsOf("phone", phone) + ErrorsOf("password", password)
                  + ErrorsOf("confirm_password", confirm);
    if errors == [] then
      Ok(UserRegister(q.email, q.firstName, q.lastName, q.middleName, q.phone, q.specialization,
                      q.licenseNumber, q.registrationNumber, q.password, q.confirmPassword,
                      q.tenantId, if q.roles.Some? then q.roles.value else DefaultRoles))
    else Err(errors)
  }

  /** A validated `PasswordResetConfirm`. */
  datatype PasswordResetConfirm = PasswordResetConfirm(token: string, newPassword: string, confirmPassword: string)

  /** Building a `PasswordResetConfirm`: the same password rules as registration. */
  function ValidateResetConfirm(token: string, newPassword: string, confirm: string)
    : (r: Result<PasswordResetConfirm, seq<FieldError>>)
    ensures r.Ok? <==> |newPassword| >= PasswordMinLength && confirm == newPassword
    ensures r.Ok? ==> r.value == PasswordResetConfirm(token, newPassword, confirm)
    ensures r.Err? ==>
      && (FieldError("new_password", PasswordTooShort) in r.error <==> |newPassword| < PasswordMinLength)
      && (FieldError("confirm_password", PasswordsDoNotMatch) in r.error <==>
            |newPassword| >= PasswordMinLength && confirm != newPassword)
  {
    var password := NewPassword(newPassword);
    var check := ConfirmPassword(password, confirm);
    var errors := ErrorsOf("new_password", password) + ErrorsOf("confirm_password", check);
    if errors == [] then Ok(PasswordResetConfirm(token, newPassword, confirm)) else Err(errors)
  }

  /** A `UserUpdate` request: every field optional. */
  datatype UserUpdate = UserUpdate(
    firstName: Option<string>,
    lastName: Option<string>,
    middleName: Option<string>,
    phone: Option<string>,
    specialization: Option<string>,
    licenseNumber: Option<string>,
    registrationNumber: Option<string>,
    address: Option<string>,
    city: Option<string>,
    state: Option<string>,
    pincode: Option<string>,
    preferences: Option<map<string, Json>>)

  /** Building a `UserUpdate`: only the phone is checked, by the registration rule. */
  function ValidateUpdate(u: UserUpdate): (r: Result<UserUpdate, seq<FieldError>>)
    ensures r.Ok? <==> PhoneAccepted(u.phone)
    ensures r.Ok? ==> r.value == u
    ensures r.Err? ==> r.error == [FieldError("phone", PhoneNotIndian)]
  {
    var phone := Phone(u.phone);
    if phone.Err? then Err(ErrorsOf("phone", phone)) else Ok(u)
  }

  /** The public view of a user: no password hash, MFA secret, tenant or username. */
  datatype UserResponse = UserResponse(
    id: string,
    email: string,
    firstName: string,
    lastName: string,
    middleName: Option<string>,
    phone: Option<string>,
    roles: seq<string>,
    specialization: Option<string>,
    licenseNumber: Option<string>,
    registrationNumber: Option<string>,
    isActive: bool,
    isVerified: bool,
    abhaId: Option<string>,
    hprId: Option<string>,
    address: Option<string>,
    city: Option<string>,
    state: Option<string>,
    pincode: Option<string>,
    country: string,
    createdAt: Timestamp,
    updatedAt: Option<Timestamp>,
    lastLogin: Option<Timestamp>,
    mfaEnabled: bool,
    preferences: map<string, Json>)
  {
    /** `UserResponse.full_name`: the same rule as `User.full_name`. */
    function FullName(): (r: string)
      ensures r == Naming.FullName(firstName, middleName, lastName)
      ensures Truthy(middleName) ==> |r| == |firstName| + |middleName.value| + |lastName| + 2
      ensures !Truthy(middleName) ==> |r| == |firstName| + |lastName| + 1
    {
      Naming.FullName(firstName, middleName, lastName)
    }
  }

  /** `UserResponse.from_user`. */
  function FromUser(u: User): (r: UserResponse)
    ensures r.FullName() == u.FullName()
    ensures r.roles == u.roles && r.email == u.email && r.id == u.id
  {
    UserResponse(u.id, u.email, u.firstName, u.lastName, u.middleName, u.phone, u.roles,
                 u.specialization, u.licenseNumber, u.registrationNumber, u.isActive, u.isVerified,
                 u.abhaId, u.hprId, u.address, u.city, u.state, u.pincode, u.country,
                 u.createdAt, u.updatedAt, u.lastLogin, u.mfaEnabled, u.preferences)
  }

  /** Every column the response has is copied unchanged from the user. */
  lemma FromUserCopiesColumns(u: User)
    ensures var r := FromUser(u);
      && r.id == u.id && r.email == u.email
      && r.firstName == u.firstName && r.lastName == u.lastName && r.middleName == u.middleName
      && r.phone == u.phone && r.roles == u.roles
      && r.specialization == u.specialization && r.licenseNumber == u.licenseNumber
      && r.registrationNumber == u.registrationNumber
      && r.isActive == u.isActive && r.isVerified == u.isVerified
      && r.abhaId == u.abhaId && r.hprId == u.hprId
      && r.address == u.address && r.city == u.city && r.state == u.state
      && r.pincode == u.pincode && r.country == u.country
      && r.createdAt == u.createdAt && r.updatedAt == u.updatedAt && r.lastLogin == u.lastLogin
      && r.mfaEnabled == u.mfaEnabled && r.preferences == u.preferences
  {
  }

  /** The user with the four columns the response leaves out blanked. */
  function WithoutSecrets(u: User): User
  {
    u.(tenantId := "", username := None, hashedPassword := "", mfaSecret := None)
  }

  /** The response depends on nothing but the copied columns: changing the
      password hash, MFA secret, tenant or username never changes it. */
  lemma FromUserIgnoresSecrets(u: User, tenantId: string, username: Option<string>,
                               hashedPassword: string, mfaSecret: Option<string>)
    ensures FromUser(u.(tenantId := tenantId, username := username,
                        hashedPassword := hashedPassword, mfaSecret := mfaSecret)) == FromUser(u)
  {
  }

  /** No other column is lost: two users give the same response exactly when
      they agree on every column but those four. */
  lemma FromUserDeterminesTheRest(u1: User, u2: User)
    ensures FromUser(u1) == FromUser(u2) <==> WithoutSecrets(u1) == WithoutSecrets(u2)
  {
  }
}

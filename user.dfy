/** An application user (`User` row): derived name and role checks. */
module Users {
  import opened Wrappers
  import opened Text
  import opened Dates
  import opened JsonTree
  import Naming

  const DoctorRole: string := "doctor"
  const NurseRole: string := "nurse"
  const AdminRole: string := "admin"

  /** A persisted user row. UUID columns hold their canonical text. */
  datatype User = User(
    id: string,
    tenantId: string,
    email: string,
    phone: Option<string>,
    username: Option<string>,
    hashedPassword: string,
    isActive: bool,
    isVerified: bool,
    firstName: string,
    lastName: string,
    middleName: Option<string>,
    roles: seq<string>,
    specialization: Option<string>,
    licenseNumber: Option<string>,
    registrationNumber: Option<string>,
    abhaId: Option<string>,
    hprId: Option<string>,
    address: Option<string>,
    city: Option<string>,
    state: Option<string>,
    pincode: Option<string>,
    country: string,
    createdAt: Timestamp,
    updatedAt: Option<Timestamp>,
    lastLogin: Option<Timestamp>,
    mfaEnabled: bool,
    mfaSecret: Option<string>,
    preferences: map<string, Json>)
  {
    /** `full_name`, by the rule shared with patients. */
    function FullName(): (r: string)
      ensures r == Naming.FullName(firstName, middleName, lastName)
      ensures Truthy(middleName) ==> |r| == |firstName| + |middleName.value| + |lastName| + 2
      ensures !Truthy(middleName) ==> |r| == |firstName| + |lastName| + 1
    {
      Naming.FullName(firstName, middleName, lastName)
    }

    /** `has_role`: membership in the role list. */
    predicate HasRole(role: string)
    {
      role in roles
    }

    /** `has_any_role`, i.e. `any(role in self.roles for role in roles)`:
        some listed role is held; false for an empty list. */
    function HasAnyRole(rs: seq<string>): (r: bool)
      ensures r <==> exists i :: 0 <= i < |rs| && HasRole(rs[i])
      ensures rs == [] ==> !r
    {
      if |rs| == 0 then false
      else if HasRole(rs[0]) then true
      else
        var rest := HasAnyRole(rs[1..]);
        assert forall i :: 1 <= i < |rs| ==> rs[i] == rs[1..][i - 1];
        rest
    }

    /** `is_doctor`. */
    function IsDoctor(): (r: bool)
      ensures r == HasRole(DoctorRole) && r == HasAnyRole([DoctorRole])
    {
      DoctorRole in roles
    }

    /** `is_nurse`. */
    function IsNurse(): (r: bool)
      ensures r == HasRole(NurseRole) && r == HasAnyRole([NurseRole])
    {
      NurseRole in roles
    }

    /** `is_admin`. */
    function IsAdmin(): (r: bool)
      ensures r == HasRole(AdminRole) && r == HasAnyRole([AdminRole])
    {
      AdminRole in roles
    }
  }

  /** Holding one of the listed roles is enough for `has_any_role`. */
  lemma HasAnyRoleOfHeldRole(u: User, role: string, rs: seq<string>)
    requires u.HasRole(role) && role in rs
    ensures u.HasAnyRole(rs)
  {
  }

  /** `has_any_role` is monotone: asking about more roles never turns it false. */
  lemma HasAnyRoleMonotone(u: User, rs: seq<string>, more: seq<string>)
    requires u.HasAnyRole(rs)
    requires forall r :: r in rs ==> r in more
    ensures u.HasAnyRole(more)
  {
    var i :| 0 <= i < |rs| && u.HasRole(rs[i]);
    HasAnyRoleOfHeldRole(u, rs[i], more);
  }

  /** Checking a concatenation of role lists is checking each list. */
  lemma HasAnyRoleAppend(u: User, rs: seq<string>, more: seq<string>)
    ensures u.HasAnyRole(rs + more) == (u.HasAnyRole(rs) || u.HasAnyRole(more))
  {
    if u.HasAnyRole(rs + more) {
      var i :| 0 <= i < |rs + more| && u.HasRole((rs + more)[i]);
      if i >= |rs| {
        assert more[i - |rs|] == (rs + more)[i];
      }
    }
    if u.HasAnyRole(rs) {
      var i :| 0 <= i < |rs| && u.HasRole(rs[i]);
      assert (rs + more)[i] == rs[i];
    }
    if u.HasAnyRole(more) {
      var i :| 0 <= i < |more| && u.HasRole(more[i]);
      assert (rs + more)[|rs| + i] == more[i];
    }
  }
}

/**
 * The hospital registration form's schema, and how it compares with the
 * backend's hospital schema.
 */
module HospitalForm {
  import opened Wrappers
  import opened Records
  import opened FormChecks
  import HospitalServer

  /** The issue the form reports on one path, if any; `isEmail` is the library's email test. */
  function PathIssue(h: HospitalInput, isEmail: string -> bool, p: HospitalPath): Option<Message> {
    match p
    case HospitalName => MinLength(h.name, 2, "Hospital name is required")
    case HospitalEmail =>
      if h.email.None? then Some(LibraryDefault(Required))
      else if !isEmail(h.email.value) then Some(Custom("Invalid email address"))
      else None
    case HospitalPhone => MinLength(h.phone, 10, "Invalid phone number")
    case HospitalAddress => MinLength(h.address, 5, "Address is required")
    case HospitalCity => MinLength(h.city, 2, "City is required")
    case HospitalState => MinLength(h.state, 2, "State is required")
    case HospitalUnit => AnyString(h.unit)
    case HospitalBloodGroup => AnyString(h.bloodGroup)
    case HospitalContactPerson => MinLength(h.contactPerson, 2, "Contact person name is required")
  }

  const FormPaths: set<HospitalPath> :=
    {HospitalName, HospitalEmail, HospitalPhone, HospitalAddress, HospitalCity,
     HospitalState, HospitalUnit, HospitalBloodGroup, HospitalContactPerson}

  /** The form accepts a body: no path has an issue. */
  predicate FormAccepts(h: HospitalInput, isEmail: string -> bool) {
    forall p :: p in FormPaths ==> PathIssue(h, isEmail, p).None?
  }

  /** The issues shown, one per failing path. */
  function FormIssues(h: HospitalInput, isEmail: string -> bool): (issues: map<HospitalPath, Message>)
    ensures forall p :: p in issues <==> PathIssue(h, isEmail, p).Some?
    ensures forall p :: p in issues ==> issues[p] == PathIssue(h, isEmail, p).value
    ensures issues == map[] <==> FormAccepts(h, isEmail)
  {
    var issues := map p | p in FormPaths && PathIssue(h, isEmail, p).Some? :: PathIssue(h, isEmail, p).value;
    forall p | PathIssue(h, isEmail, p).Some? ensures p in issues { }
    issues
  }

  /**
   * What the form demands of an accepted body: name and contact person of at
   * least 2 characters, a phone of at least 10, an address of at least 5,
   * city and state of at least 2, and unit and blood_group present.
   */
  lemma FormAcceptsOnly(h: HospitalInput, isEmail: string -> bool)
    requires FormAccepts(h, isEmail)
    ensures h.name.Some? && |h.name.value| >= 2
    ensures h.contactPerson.Some? && |h.contactPerson.value| >= 2
    ensures h.email.Some? && isEmail(h.email.value)
    ensures h.phone.Some? && |h.phone.value| >= 10
    ensures h.address.Some? && |h.address.value| >= 5
    ensures h.city.Some? && |h.city.value| >= 2 && h.state.Some? && |h.state.value| >= 2
    ensures h.unit.Some? && h.bloodGroup.Some?
  {
    assert PathIssue(h, isEmail, HospitalName).None? && PathIssue(h, isEmail, HospitalContactPerson).None?;
    assert PathIssue(h, isEmail, HospitalEmail).None? && PathIssue(h, isEmail, HospitalPhone).None?;
    assert PathIssue(h, isEmail, HospitalAddress).None? && PathIssue(h, isEmail, HospitalCity).None?;
    assert PathIssue(h, isEmail, HospitalState).None?;
    assert PathIssue(h, isEmail, HospitalUnit).None? && PathIssue(h, isEmail, HospitalBloodGroup).None?;
  }

  /** unit and blood_group take any string, including the empty one and non-groups. */
  lemma FreeTextPathsAcceptAnyString(h: HospitalInput, isEmail: string -> bool, unit: string, group: string)
    requires FormAccepts(h, isEmail)
    ensures FormAccepts(h.(unit := Some(unit), bloodGroup := Some(group)), isEmail)
  {
    var h' := h.(unit := Some(unit), bloodGroup := Some(group));
    forall p | p in FormPaths ensures PathIssue(h', isEmail, p).None? {
      assert PathIssue(h, isEmail, p).None?;
    }
  }

  /**
   * Every path the backend requires is constrained at least as tightly by
   * the form, so a body the form accepts passes the backend's schema.
   * (Assumes the email test rejects the empty string.)
   */
  lemma FormAcceptedImpliesBackendAccepts(h: HospitalInput, isEmail: string -> bool)
    requires !isEmail("")
    requires FormAccepts(h, isEmail)
    ensures HospitalServer.Accepted(h)
    ensures HospitalServer.ValidateHospital(h).Success?
  {
    FormAcceptsOnly(h, isEmail);
    assert h.email.value != "";
  }

  /** The converse fails: a one-letter name passes the backend and not the form. */
  lemma BackendAcceptsShortName(h: HospitalInput, isEmail: string -> bool)
    requires HospitalServer.Accepted(h)
    ensures HospitalServer.Accepted(h.(name := Some("A")))
    ensures HospitalName in FormIssues(h.(name := Some("A")), isEmail)
    ensures FormIssues(h.(name := Some("A")), isEmail)[HospitalName] == Custom("Hospital name is required")
  {
  }
}

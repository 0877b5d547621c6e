/**
 * The donor registration form's schema (the front end's check before the
 * body is posted), and how it compares with the backend's donor schema.
 */
module DonorForm {
  import opened Wrappers
  import opened Text
  import opened Records
  import opened FormChecks
  import DonorModel

  const FormGenders: seq<string> := ["male", "female", "other"]
  const FormBloodGroups: seq<string> := ["A+", "A-", "B+", "B-", "AB+", "AB-", "O+", "O-"]
  const AgeConfirmationMessage := "You must be 18 or older to register"
  const NameMessage := "Name must be at least 2 characters"
  const UnderageMessage := "Must be at least 18 years old"
  const OverageMessage := "Must be under 65 years old"
  const PhoneMessage := "Invalid phone number"
  const EmailMessage := "Invalid email address"
  const AddressMessage := "Address is required"
  const CityMessage := "City is required"
  const StateMessage := "State is required"

  /**
   * The first issue the form reports on one path, if any. `isEmail` is the
   * library's email-format test.
   */
  function PathIssue(d: DonorInput, isEmail: string -> bool, p: DonorPath): Option<Message> {
    match p
    case DonorName => MinLength(d.name, 2, NameMessage)
    case DonorAge =>
      if d.age.None? then Some(LibraryDefault(Required))
      else if d.age.value < 18 then Some(Custom(UnderageMessage))
      else if d.age.value > 65 then Some(Custom(OverageMessage))
      else None
    case DonorGender => OneOf(d.gender, FormGenders)
    case DonorBloodGroup => OneOf(d.bloodGroup, FormBloodGroups)
    case DonorPhone => MinLength(d.phone, 10, PhoneMessage)
    case DonorEmail =>
      if d.email.None? then Some(LibraryDefault(Required))
      else if !isEmail(d.email.value) then Some(Custom(EmailMessage))
      else None
    case DonorAddress => MinLength(d.address, 5, AddressMessage)
    case DonorCity => MinLength(d.city, 2, CityMessage)
    case DonorState => MinLength(d.state, 2, StateMessage)
    case DonorAgeConfirmation =>
      // the literal `true` carries one message for every way of failing it
      if d.ageConfirmation == Some(true) then None else Some(Custom(AgeConfirmationMessage))
    case DonorMedicalQuestions =>
      if d.medicalQuestions.None? then Some(LibraryDefault(Required)) else None
    case DonorMedical(f) =>
      if d.medicalQuestions.Some? && f !in d.medicalQuestions.value
      then Some(LibraryDefault(Required)) else None
  }

  /** The paths the form validates, the ten medical flags last. */
  const FormPaths: seq<DonorPath> :=
    [DonorName, DonorAge, DonorGender, DonorBloodGroup, DonorPhone, DonorEmail,
     DonorAddress, DonorCity, DonorState, DonorAgeConfirmation, DonorMedicalQuestions,
     DonorMedical(RecentIllness), DonorMedical(HeartCondition), DonorMedical(BloodPressure),
     DonorMedical(Diabetes), DonorMedical(Hepatitis), DonorMedical(Hiv),
     DonorMedical(Medication), DonorMedical(Surgery), DonorMedical(Pregnancy),
     DonorMedical(Vaccination)]

  /** The form accepts a body: no path has an issue. */
  predicate FormAccepts(d: DonorInput, isEmail: string -> bool) {
    && PathIssue(d, isEmail, DonorName).None? && PathIssue(d, isEmail, DonorAge).None?
    && PathIssue(d, isEmail, DonorGender).None? && PathIssue(d, isEmail, DonorBloodGroup).None?
    && PathIssue(d, isEmail, DonorPhone).None? && PathIssue(d, isEmail, DonorEmail).None?
    && PathIssue(d, isEmail, DonorAddress).None? && PathIssue(d, isEmail, DonorCity).None?
    && PathIssue(d, isEmail, DonorState).None? && PathIssue(d, isEmail, DonorAgeConfirmation).None?
    && PathIssue(d, isEmail, DonorMedicalQuestions).None?
    && forall f :: PathIssue(d, isEmail, DonorMedical(f)).None?
  }

  /** The form lists every path. */
  lemma EveryPathListed(p: DonorPath)
    ensures p in FormPaths
  {
    match p
    case DonorName => assert FormPaths[0] == p;
    case DonorAge => assert FormPaths[1] == p;
    case DonorGender => assert FormPaths[2] == p;
    case DonorBloodGroup => assert FormPaths[3] == p;
    case DonorPhone => assert FormPaths[4] == p;
    case DonorEmail => assert FormPaths[5] == p;
    case DonorAddress => assert FormPaths[6] == p;
    case DonorCity => assert FormPaths[7] == p;
    case DonorState => assert FormPaths[8] == p;
    case DonorAgeConfirmation => assert FormPaths[9] == p;
    case DonorMedicalQuestions => assert FormPaths[10] == p;
    case DonorMedical(f) => {
      match f
      case RecentIllness => assert FormPaths[11] == p;
      case HeartCondition => assert FormPaths[12] == p;
      case BloodPressure => assert FormPaths[13] == p;
      case Diabetes => assert FormPaths[14] == p;
      case Hepatitis => assert FormPaths[15] == p;
      case Hiv => assert FormPaths[16] == p;
      case Medication => assert FormPaths[17] == p;
      case Surgery => assert FormPaths[18] == p;
      case Pregnancy => assert FormPaths[19] == p;
      case Vaccination => assert FormPaths[20] == p;
    }
  }

  /** The issues on the paths of `ps`, each with its message. */
  function IssuesOn(d: DonorInput, isEmail: string -> bool, ps: seq<DonorPath>): (issues: map<DonorPath, Message>)
    ensures forall p :: p in issues <==> p in ps && PathIssue(d, isEmail, p).Some?
    ensures forall p :: p in issues ==> issues[p] == PathIssue(d, isEmail, p).value
  {
    if ps == [] then map[]
    else
      var rest := IssuesOn(d, isEmail, ps[1..]);
      assert forall p :: p in ps <==> p == ps[0] || p in ps[1..];
      match PathIssue(d, isEmail, ps[0])
      case None => rest
      case Some(m) => rest[ps[0] := m]
  }

  /**
   * The issues shown, one per failing path: every path with an issue is
   * listed, with that issue's message.
   */
  function FormIssues(d: DonorInput, isEmail: string -> bool): (issues: map<DonorPath, Message>)
    ensures forall p :: p in issues <==> PathIssue(d, isEmail, p).Some?
    ensures forall p :: p in issues ==> issues[p] == PathIssue(d, isEmail, p).value
  {
    forall p ensures p in FormPaths { EveryPathListed(p); }
    IssuesOn(d, isEmail, FormPaths)
  }

  /** A body the form accepts has no issue on any path. */
  lemma AcceptedNoIssues(d: DonorInput, isEmail: string -> bool)
    requires FormAccepts(d, isEmail)
    ensures FormIssues(d, isEmail) == map[]
  {
    forall p ensures PathIssue(d, isEmail, p).None? {
      match p
      case DonorMedical(f) =>
      case _ =>
    }
  }

  /** A body with no issue on any path is accepted. */
  lemma NoIssuesAccepted(d: DonorInput, isEmail: string -> bool)
    requires FormIssues(d, isEmail) == map[]
    ensures FormAccepts(d, isEmail)
  {
    forall p ensures PathIssue(d, isEmail, p).None? {
      assert p !in FormIssues(d, isEmail);
    }
  }

  /** The form shows no issue exactly when it accepts the body. */
  lemma AcceptedIffNoIssues(d: DonorInput, isEmail: string -> bool)
    ensures FormAccepts(d, isEmail) <==> FormIssues(d, isEmail) == map[]
  {
    if FormAccepts(d, isEmail) { AcceptedNoIssues(d, isEmail); }
    if FormIssues(d, isEmail) == map[] { NoIssuesAccepted(d, isEmail); }
  }

  /** Any confirmation other than a ticked box shows "You must be 18 or older to register". */
  lemma UnconfirmedShowsMessage(d: DonorInput, isEmail: string -> bool)
    requires d.ageConfirmation != Some(true)
    ensures DonorAgeConfirmation in FormIssues(d, isEmail)
    ensures FormIssues(d, isEmail)[DonorAgeConfirmation] == Custom(AgeConfirmationMessage)
  {
    assert PathIssue(d, isEmail, DonorAgeConfirmation) == Some(Custom(AgeConfirmationMessage));
  }

  /**
   * What the form demands of an accepted body: a name of at least 2
   * characters, an age within 18..65, a phone of at least 10 characters (and
   * nothing more), the confirmation ticked, and all ten medical answers.
   */
  lemma FormAcceptsOnly(d: DonorInput, isEmail: string -> bool)
    requires FormAccepts(d, isEmail)
    ensures d.name.Some? && |d.name.value| >= 2
    ensures d.age.Some? && 18 <= d.age.value <= 65
    ensures d.phone.Some? && |d.phone.value| >= 10
    ensures d.email.Some? && isEmail(d.email.value)
    ensures d.address.Some? && |d.address.value| >= 5
    ensures d.city.Some? && |d.city.value| >= 2 && d.state.Some? && |d.state.value| >= 2
    ensures d.ageConfirmation == Some(true)
    ensures d.medicalQuestions.Some? && forall f :: f in d.medicalQuestions.value
  {
    forall f ensures f in d.medicalQuestions.value {
      assert PathIssue(d, isEmail, DonorMedical(f)).None?;
    }
  }

  /** The two schemas list the same genders and blood groups. */
  lemma EnumsAgree(d: DonorInput, isEmail: string -> bool)
    ensures PathIssue(d, isEmail, DonorGender).None? <==> DonorGender !in DonorModel.SchemaErrors(d)
    ensures PathIssue(d, isEmail, DonorBloodGroup).None? <==> DonorBloodGroup !in DonorModel.SchemaErrors(d)
  {
  }

  /** The two schemas bound the age identically. */
  lemma AgeRangesAgree(d: DonorInput, isEmail: string -> bool)
    ensures PathIssue(d, isEmail, DonorAge).None? <==> DonorAge !in DonorModel.SchemaErrors(d)
  {
  }

  /**
   * A body the form accepts can still fail on the backend, but only on two
   * paths: the name, when it is nothing but whitespace, and the phone, when
   * it holds a non-digit or more than 15 characters. (Assumes the email test
   * rejects the empty string.)
   */
  lemma FormAcceptedBackendErrors(d: DonorInput, isEmail: string -> bool)
    requires !isEmail("")
    requires FormAccepts(d, isEmail)
    ensures DonorModel.SchemaErrors(d) <= {DonorName, DonorPhone}
    ensures DonorName in DonorModel.SchemaErrors(d) <==> AllWhitespace(d.name.value)
    ensures DonorPhone in DonorModel.SchemaErrors(d) <==> !AllDigits(d.phone.value) || |d.phone.value| > 15
  {
    FormAcceptsOnly(d, isEmail);
    assert d.email.value != "";
    DonorModel.NameAcceptedIff(d);
    DonorModel.PhoneAcceptedIff(d);
    EnumsAgree(d, isEmail);
    AgeRangesAgree(d, isEmail);
    DonorModel.PresenceOnlyPaths(d);
    assert DonorModel.PathValid(d, DonorAgeConfirmation);
  }

  /**
   * The form's phone check is a length only: replacing the phone of an
   * accepted body with ten letters keeps the form happy, and the backend
   * then rejects the phone.
   */
  lemma LetterPhonePassesFormOnly(d: DonorInput, isEmail: string -> bool)
    requires FormAccepts(d, isEmail)
    ensures FormAccepts(d.(phone := Some("abcdefghij")), isEmail)
    ensures DonorPhone in DonorModel.SchemaErrors(d.(phone := Some("abcdefghij")))
  {
    var d' := d.(phone := Some("abcdefghij"));
    forall f ensures PathIssue(d', isEmail, DonorMedical(f)).None? {
      assert PathIssue(d, isEmail, DonorMedical(f)).None?;
    }
    assert !IsDigit("abcdefghij"[0]);
  }

  /** A name of two spaces passes the form and is missing once the backend trims it. */
  lemma BlankNamePassesFormOnly(d: DonorInput, isEmail: string -> bool)
    requires FormAccepts(d, isEmail)
    ensures FormAccepts(d.(name := Some("  ")), isEmail)
    ensures DonorName in DonorModel.SchemaErrors(d.(name := Some("  ")))
  {
    var d' := d.(name := Some("  "));
    forall f ensures PathIssue(d', isEmail, DonorMedical(f)).None? {
      assert PathIssue(d, isEmail, DonorMedical(f)).None?;
    }
    assert AllWhitespace("  ");
  }

  /**
   * The backend takes an unticked confirmation; the form refuses it with
   * "You must be 18 or older to register".
   */
  lemma UnconfirmedPassesBackendOnly(d: DonorInput, isEmail: string -> bool)
    requires DonorModel.Accepted(d)
    ensures DonorModel.Accepted(d.(ageConfirmation := Some(false)))
    ensures DonorAgeConfirmation in FormIssues(d.(ageConfirmation := Some(false)), isEmail)
    ensures FormIssues(d.(ageConfirmation := Some(false)), isEmail)[DonorAgeConfirmation]
      == Custom(AgeConfirmationMessage)
  {
    var d' := d.(ageConfirmation := Some(false));
    assert DonorModel.NameValid(d') && DonorModel.AgeValid(d') && DonorModel.GenderValid(d');
    assert DonorModel.BloodGroupValid(d') && DonorModel.PhoneValid(d');
    UnconfirmedShowsMessage(d', isEmail);
  }

  /**
   * The backend fills absent medical answers with false: an accepted body
   * that sends none of them is still accepted, and stored with every flag false.
   */
  lemma MissingAnswersPassBackend(d: DonorInput)
    requires DonorModel.Accepted(d)
    ensures DonorModel.Accepted(d.(medicalQuestions := Some(map[])))
    ensures forall f :: !Answer(DonorModel.Normalize(d.(medicalQuestions := Some(map[]))).medicalQuestions, f)
  {
    var d' := d.(medicalQuestions := Some(map[]));
    assert DonorModel.Accepted(d');
  }

  /** A medical flag left out of a sent answers object shows the library's required issue. */
  lemma MissingAnswerShown(d: DonorInput, isEmail: string -> bool, f: MedicalFlag)
    requires d.medicalQuestions.Some? && f !in d.medicalQuestions.value
    ensures DonorMedical(f) in FormIssues(d, isEmail)
    ensures FormIssues(d, isEmail)[DonorMedical(f)] == LibraryDefault(Required)
  {
    assert PathIssue(d, isEmail, DonorMedical(f)) == Some(LibraryDefault(Required));
  }

  /** The form requires every medical answer: a body sending none shows an issue on each flag. */
  lemma MissingAnswersFailForm(d: DonorInput, isEmail: string -> bool)
    requires d.medicalQuestions == Some(map[])
    ensures forall f :: DonorMedical(f) in FormIssues(d, isEmail)
  {
    forall f ensures DonorMedical(f) in FormIssues(d, isEmail) {
      MissingAnswerShown(d, isEmail, f);
    }
  }
}

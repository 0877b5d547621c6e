/**
 * The backend's donor schema: which request bodies it accepts, and the
 * document it stores for an accepted one (name trimmed, absent medical flags
 * filled with false).
 */
module DonorModel {
  import opened Wrappers
  import opened Text
  import opened Records

  const MinAge := 18
  const MaxAge := 65
  const SchemaGenders: seq<string> := ["male", "female", "other"]
  const SchemaBloodGroups: seq<string> := ["A+", "A-", "B+", "B-", "AB+", "AB-", "O+", "O-"]

  /** The phone pattern: only decimal digits, 10 to 15 of them. */
  predicate PhonePattern(s: string) {
    10 <= |s| <= 15 && AllDigits(s)
  }

  /** The paths the schema validates; the medical flags only have defaults. */
  const SchemaPaths: set<DonorPath> :=
    {DonorName, DonorAge, DonorGender, DonorBloodGroup, DonorPhone, DonorEmail,
     DonorAddress, DonorCity, DonorState, DonorAgeConfirmation}

  /** The name is checked after the trim setter has run: only whitespace counts as missing. */
  predicate NameValid(d: DonorInput) {
    d.name.Some? && Trim(d.name.value) != ""
  }

  predicate AgeValid(d: DonorInput) {
    d.age.Some? && MinAge <= d.age.value <= MaxAge
  }

  predicate GenderValid(d: DonorInput) {
    d.gender.Some? && d.gender.value in SchemaGenders
  }

  predicate BloodGroupValid(d: DonorInput) {
    d.bloodGroup.Some? && d.bloodGroup.value in SchemaBloodGroups
  }

  predicate PhoneValid(d: DonorInput) {
    RequiredText(d.phone) && PhonePattern(d.phone.value)
  }

  /** Whether every validator of one path passes; the medical paths only have defaults. */
  predicate PathValid(d: DonorInput, p: DonorPath) {
    match p
    case DonorName => NameValid(d)
    case DonorAge => AgeValid(d)
    case DonorGender => GenderValid(d)
    case DonorBloodGroup => BloodGroupValid(d)
    case DonorPhone => PhoneValid(d)
    case DonorEmail => RequiredText(d.email)
    case DonorAddress => RequiredText(d.address)
    case DonorCity => RequiredText(d.city)
    case DonorState => RequiredText(d.state)
    case DonorAgeConfirmation => d.ageConfirmation.Some?
    case DonorMedicalQuestions => true
    case DonorMedical(_) => true
  }

  /** Every validated path passes. */
  predicate Accepted(d: DonorInput) {
    && NameValid(d) && AgeValid(d) && GenderValid(d) && BloodGroupValid(d) && PhoneValid(d)
    && RequiredText(d.email) && RequiredText(d.address) && RequiredText(d.city)
    && RequiredText(d.state) && d.ageConfirmation.Some?
  }

  /** The failing validated paths of a body. */
  function FailingPaths(d: DonorInput): set<DonorPath> {
    set p | p in SchemaPaths && !PathValid(d, p)
  }

  /** An accepted body passes the check of every validated path. */
  lemma AcceptedPathsValid(d: DonorInput)
    requires Accepted(d)
    ensures FailingPaths(d) == {}
  {
    forall p | p in SchemaPaths ensures PathValid(d, p) {
      match p
      case DonorMedicalQuestions =>
      case DonorMedical(_) =>
      case _ =>
    }
  }

  /** A body with no failing path is accepted. */
  lemma NoFailingPathAccepted(d: DonorInput)
    requires FailingPaths(d) == {}
    ensures Accepted(d)
  {
    forall p | p in SchemaPaths ensures PathValid(d, p) {
      assert p !in FailingPaths(d);
    }
    assert PathValid(d, DonorName) && PathValid(d, DonorAge) && PathValid(d, DonorGender);
    assert PathValid(d, DonorBloodGroup) && PathValid(d, DonorPhone) && PathValid(d, DonorEmail);
    assert PathValid(d, DonorAddress) && PathValid(d, DonorCity) && PathValid(d, DonorState);
    assert PathValid(d, DonorAgeConfirmation);
  }

  /** No path fails exactly when the body is accepted. */
  lemma FailingPathsEmptyIff(d: DonorInput)
    ensures FailingPaths(d) == {} <==> Accepted(d)
  {
    if Accepted(d) { AcceptedPathsValid(d); }
    if FailingPaths(d) == {} { NoFailingPathAccepted(d); }
  }

  /**
   * The paths a save would report in its validation error: all failing ones
   * at once, and none exactly when the body is accepted.
   */
  function SchemaErrors(d: DonorInput): (errs: set<DonorPath>)
    ensures forall p :: p in errs <==> p in SchemaPaths && !PathValid(d, p)
    ensures errs == {} <==> Accepted(d)
  {
    FailingPathsEmptyIff(d);
    FailingPaths(d)
  }

  /** The value a medical flag gets: the one sent, or the default false. */
  function SentOrDefault(m: Option<map<MedicalFlag, bool>>, f: MedicalFlag): bool {
    if m.Some? && f in m.value then m.value[f] else false
  }

  /** Fills the ten medical flags: those absent (or the whole object absent) become false. */
  function MedicalDefaults(m: Option<map<MedicalFlag, bool>>): (a: MedicalAnswers)
    ensures forall f :: Answer(a, f) == SentOrDefault(m, f)
  {
    MedicalAnswers(
      SentOrDefault(m, RecentIllness), SentOrDefault(m, HeartCondition),
      SentOrDefault(m, BloodPressure), SentOrDefault(m, Diabetes),
      SentOrDefault(m, Hepatitis), SentOrDefault(m, Hiv),
      SentOrDefault(m, Medication), SentOrDefault(m, Surgery),
      SentOrDefault(m, Pregnancy), SentOrDefault(m, Vaccination))
  }

  /** What every stored donor satisfies. */
  predicate WellFormedRecord(r: DonorRecord) {
    && r.name != "" && Trimmed(r.name)
    && MinAge <= r.age <= MaxAge
    && PhonePattern(r.phone)
    && r.email != "" && r.address != "" && r.city != "" && r.state != ""
  }

  /**
   * The document built from an accepted body: well formed, every sent field
   * kept (the name trimmed), each absent medical flag false.
   */
  function Normalize(d: DonorInput): (r: DonorRecord)
    requires Accepted(d)
    ensures WellFormedRecord(r)
    ensures r.name == Trim(d.name.value)
    ensures d.age == Some(r.age) && d.phone == Some(r.phone)
    ensures d.gender == Some(GenderName(r.gender))
    ensures d.bloodGroup == Some(GroupName(r.bloodGroup))
    ensures d.email == Some(r.email) && d.address == Some(r.address)
    ensures d.city == Some(r.city) && d.state == Some(r.state)
    ensures d.ageConfirmation == Some(r.ageConfirmation)
    ensures forall f :: Answer(r.medicalQuestions, f) == SentOrDefault(d.medicalQuestions, f)
  {
    GendersClosed(d.gender.value);
    BloodGroupsClosed(d.bloodGroup.value);
    DonorRecord(
      Trim(d.name.value), d.age.value,
      ParseGender(d.gender.value).value, ParseBloodGroup(d.bloodGroup.value).value,
      d.phone.value, d.email.value, d.address.value, d.city.value, d.state.value,
      d.ageConfirmation.value, MedicalDefaults(d.medicalQuestions))
  }

  /**
   * Validation of a donor body is all or nothing: the normalised record when
   * every path passes, otherwise the non-empty set of failing paths.
   */
  function ValidateDonor(d: DonorInput): (r: Result<DonorRecord, set<DonorPath>>)
    ensures r.Success? <==> Accepted(d)
    ensures r.Success? ==> r.value == Normalize(d) && WellFormedRecord(r.value)
    ensures r.Failure? ==> r.error != {} && r.error == SchemaErrors(d)
  {
    if Accepted(d) then Success(Normalize(d)) else Failure(SchemaErrors(d))
  }

  /** A donor is accepted only if the age is present and within 18..65. */
  lemma AgeOutsideRangeRejected(d: DonorInput)
    requires d.age.None? || d.age.value < MinAge || d.age.value > MaxAge
    ensures ValidateDonor(d).Failure? && DonorAge in ValidateDonor(d).error
  {
  }

  /** The age path passes exactly when the age is present and within 18..65, both ends included. */
  lemma AgeAcceptedIff(d: DonorInput)
    ensures DonorAge !in SchemaErrors(d) <==> d.age.Some? && 18 <= d.age.value <= 65
  {
  }

  /** The phone path passes exactly when the phone is 10 to 15 decimal digits. */
  lemma PhoneAcceptedIff(d: DonorInput)
    ensures DonorPhone !in SchemaErrors(d) <==> d.phone.Some? && PhonePattern(d.phone.value)
  {
  }

  /** The schema's gender list names exactly the three genders. */
  lemma GendersClosed(s: string)
    ensures s in SchemaGenders <==> ParseGender(s).Some?
  {
    if s in SchemaGenders {
      assert s == SchemaGenders[0] || s == SchemaGenders[1] || s == SchemaGenders[2];
    }
  }

  /** The schema's blood group list names exactly the eight groups. */
  lemma BloodGroupsClosed(s: string)
    ensures s in SchemaBloodGroups <==> ParseBloodGroup(s).Some?
  {
    if s in SchemaBloodGroups {
      var i :| 0 <= i < 8 && s == SchemaBloodGroups[i];
    }
  }

  /** The two enums are closed: a value passes exactly when it names a Gender / BloodGroup. */
  lemma EnumsAreClosed(d: DonorInput)
    ensures DonorGender !in SchemaErrors(d) <==> d.gender.Some? && ParseGender(d.gender.value).Some?
    ensures DonorBloodGroup !in SchemaErrors(d) <==> d.bloodGroup.Some? && ParseBloodGroup(d.bloodGroup.value).Some?
  {
    if d.gender.Some? { GendersClosed(d.gender.value); }
    if d.bloodGroup.Some? { BloodGroupsClosed(d.bloodGroup.value); }
  }

  /**
   * ageConfirmation is only required to be present: an accepted body with the
   * box unticked is still accepted, and the record stores false.
   */
  lemma UnconfirmedAgeAccepted(d: DonorInput)
    requires ValidateDonor(d).Success?
    ensures ValidateDonor(d.(ageConfirmation := Some(false))).Success?
    ensures !ValidateDonor(d.(ageConfirmation := Some(false))).value.ageConfirmation
  {
    var d' := d.(ageConfirmation := Some(false));
    assert NameValid(d') && AgeValid(d') && GenderValid(d') && BloodGroupValid(d') && PhoneValid(d');
    assert Accepted(d');
  }


  /**
   * The email, address, city and state paths check presence only: any
   * non-empty text passes, with no format check on the email.
   */
  lemma PresenceOnlyPaths(d: DonorInput)
    ensures DonorEmail !in SchemaErrors(d) <==> d.email.Some? && d.email.value != ""
    ensures DonorAddress !in SchemaErrors(d) <==> d.address.Some? && d.address.value != ""
    ensures DonorCity !in SchemaErrors(d) <==> d.city.Some? && d.city.value != ""
    ensures DonorState !in SchemaErrors(d) <==> d.state.Some? && d.state.value != ""
  {
  }

  /** The name passes exactly when it is present and not only whitespace. */
  lemma NameAcceptedIff(d: DonorInput)
    ensures DonorName !in SchemaErrors(d) <==> d.name.Some? && !AllWhitespace(d.name.value)
  {
  }

  /** Hence a name of only whitespace is trimmed to nothing and the body is rejected. */
  lemma BlankNameRejected(d: DonorInput)
    requires d.name.Some? && AllWhitespace(d.name.value)
    ensures ValidateDonor(d).Failure? && DonorName in ValidateDonor(d).error
  {
    NameAcceptedIff(d);
  }

  /** A complete body that sends no medical answers. */
  const JaneDoe := DonorInput(
    Some("Jane Doe"), Some(30), Some("female"), Some("O-"), Some("9876543210"),
    Some("jane@x.com"), Some("1 Main St"), Some("Metropolis"), Some("NY"),
    Some(true), Some(map[]))

  /** The example body passes every path. */
  lemma JaneDoeAccepted()
    ensures Accepted(JaneDoe)
  {
    assert Trimmed("Jane Doe");
    assert AllDigits("9876543210");
    assert SchemaGenders[1] == "female" && SchemaBloodGroups[7] == "O-";
  }

  /** The example body is accepted and stored as O-. */
  lemma JaneDoeExample()
    ensures ValidateDonor(JaneDoe).Success?
    ensures GroupName(ValidateDonor(JaneDoe).value.bloodGroup) == "O-"
  {
    JaneDoeAccepted();
  }

  /** It sends no medical answers, so every flag is stored as false. */
  lemma JaneDoeNoMedicalFlags()
    ensures ValidateDonor(JaneDoe).Success?
    ensures forall f :: !Answer(ValidateDonor(JaneDoe).value.medicalQuestions, f)
  {
    JaneDoeAccepted();
  }

  /** The same body with age 17 is rejected, and the error names the age. */
  lemma UnderageExample()
    ensures ValidateDonor(JaneDoe.(age := Some(17))).Failure?
    ensures DonorAge in ValidateDonor(JaneDoe.(age := Some(17))).error
  {
    AgeOutsideRangeRejected(JaneDoe.(age := Some(17)));
  }
}

/**
 * The shapes of the records exchanged by the front end and the backend:
 * a donor or hospital request body (every field possibly absent), the donor
 * document the backend keeps, and the paths that validation errors name.
 */
module Records {
  import opened Wrappers

  /** A mongoose `required` String path: present and not the empty string. */
  predicate RequiredText(v: Option<string>) {
    v.Some? && v.value != ""
  }

  datatype Gender = Male | Female | Other

  function GenderName(g: Gender): string {
    match g
    case Male => "male"
    case Female => "female"
    case Other => "other"
  }

  /** Reads a gender from its wire name; the inverse of GenderName. */
  function ParseGender(s: string): (r: Option<Gender>)
    ensures r.Some? ==> GenderName(r.value) == s
    ensures r.None? ==> forall g :: GenderName(g) != s
  {
    if s == "male" then Some(Male)
    else if s == "female" then Some(Female)
    else if s == "other" then Some(Other)
    else None
  }

  /** The eight ABO/Rh groups. */
  datatype BloodGroup = APos | ANeg | BPos | BNeg | ABPos | ABNeg | OPos | ONeg

  function GroupName(g: BloodGroup): string {
    match g
    case APos => "A+"
    case ANeg => "A-"
    case BPos => "B+"
    case BNeg => "B-"
    case ABPos => "AB+"
    case ABNeg => "AB-"
    case OPos => "O+"
    case ONeg => "O-"
  }

  /** Reads a blood group from its wire name; the inverse of GroupName. */
  function ParseBloodGroup(s: string): (r: Option<BloodGroup>)
    ensures r.Some? ==> GroupName(r.value) == s
    ensures r.None? ==> forall g :: GroupName(g) != s
  {
    if s == "A+" then Some(APos)
    else if s == "A-" then Some(ANeg)
    else if s == "B+" then Some(BPos)
    else if s == "B-" then Some(BNeg)
    else if s == "AB+" then Some(ABPos)
    else if s == "AB-" then Some(ABNeg)
    else if s == "O+" then Some(OPos)
    else if s == "O-" then Some(ONeg)
    else None
  }

  /** Printing a group and reading it back gives the same group. */
  lemma GroupNameRoundTrip(g: BloodGroup)
    ensures ParseBloodGroup(GroupName(g)) == Some(g)
  {
  }

  /** The ten yes/no questions of the donor form. */
  datatype MedicalFlag =
    | RecentIllness | HeartCondition | BloodPressure | Diabetes | Hepatitis
    | Hiv | Medication | Surgery | Pregnancy | Vaccination

  /** The stored answers: every one of the ten flags has a value. */
  datatype MedicalAnswers = MedicalAnswers(
    recentIllness: bool, heartCondition: bool, bloodPressure: bool, diabetes: bool,
    hepatitis: bool, hiv: bool, medication: bool, surgery: bool, pregnancy: bool,
    vaccination: bool)

  function Answer(m: MedicalAnswers, f: MedicalFlag): bool {
    match f
    case RecentIllness => m.recentIllness
    case HeartCondition => m.heartCondition
    case BloodPressure => m.bloodPressure
    case Diabetes => m.diabetes
    case Hepatitis => m.hepatitis
    case Hiv => m.hiv
    case Medication => m.medication
    case Surgery => m.surgery
    case Pregnancy => m.pregnancy
    case Vaccination => m.vaccination
  }

  /**
   * A donor request body. Each field is absent (None) or present; the
   * medicalQuestions object may itself be absent, and when present holds
   * only the flags that were sent.
   */
  datatype DonorInput = DonorInput(
    name: Option<string>,
    age: Option<int>,
    gender: Option<string>,
    bloodGroup: Option<string>,
    phone: Option<string>,
    email: Option<string>,
    address: Option<string>,
    city: Option<string>,
    state: Option<string>,
    ageConfirmation: Option<bool>,
    medicalQuestions: Option<map<MedicalFlag, bool>>)

  /** A donor document as the backend stores it (identifier and timestamps aside). */
  datatype DonorRecord = DonorRecord(
    name: string,
    age: int,
    gender: Gender,
    bloodGroup: BloodGroup,
    phone: string,
    email: string,
    address: string,
    city: string,
    state: string,
    ageConfirmation: bool,
    medicalQuestions: MedicalAnswers)

  /** The paths of a donor body that a validation error can name. */
  datatype DonorPath =
    | DonorName | DonorAge | DonorGender | DonorBloodGroup | DonorPhone | DonorEmail
    | DonorAddress | DonorCity | DonorState | DonorAgeConfirmation
    | DonorMedicalQuestions | DonorMedical(flag: MedicalFlag)

  /** A hospital request body. */
  datatype HospitalInput = HospitalInput(
    name: Option<string>,
    email: Option<string>,
    phone: Option<string>,
    address: Option<string>,
    city: Option<string>,
    state: Option<string>,
    bloodGroup: Option<string>,
    unit: Option<string>,
    contactPerson: Option<string>)

  /** A hospital document as the backend stores it; blood_group and unit stay optional. */
  datatype HospitalRecord = HospitalRecord(
    name: string,
    email: string,
    phone: string,
    address: string,
    city: string,
    state: string,
    bloodGroup: Option<string>,
    unit: Option<string>,
    contactPerson: string)

  /** The paths of a hospital body that a validation error can name. */
  datatype HospitalPath =
    | HospitalName | HospitalEmail | HospitalPhone | HospitalAddress | HospitalCity
    | HospitalState | HospitalBloodGroup | HospitalUnit | HospitalContactPerson
}

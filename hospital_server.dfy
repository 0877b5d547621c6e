/**
 * The backend's hospital schema and its two routes, POST and GET
 * /api/hospitals, over the hospital collection. There is no route that
 * removes or changes a hospital.
 */
module HospitalServer {
  import opened Wrappers
  import opened Records

  /** The paths the schema marks required; blood_group and unit are optional. */
  const RequiredPaths: set<HospitalPath> :=
    {HospitalName, HospitalEmail, HospitalPhone, HospitalAddress, HospitalCity,
     HospitalState, HospitalContactPerson}

  function PathValue(h: HospitalInput, p: HospitalPath): Option<string> {
    match p
    case HospitalName => h.name
    case HospitalEmail => h.email
    case HospitalPhone => h.phone
    case HospitalAddress => h.address
    case HospitalCity => h.city
    case HospitalState => h.state
    case HospitalBloodGroup => h.bloodGroup
    case HospitalUnit => h.unit
    case HospitalContactPerson => h.contactPerson
  }

  /** Every required path is present and non-empty. */
  predicate Accepted(h: HospitalInput) {
    && RequiredText(h.name) && RequiredText(h.email) && RequiredText(h.phone)
    && RequiredText(h.address) && RequiredText(h.city) && RequiredText(h.state)
    && RequiredText(h.contactPerson)
  }

  /** The failing paths a save reports: the required ones that are missing or empty. */
  function SchemaErrors(h: HospitalInput): (errs: set<HospitalPath>)
    ensures forall p :: p in errs <==> p in RequiredPaths && !RequiredText(PathValue(h, p))
    ensures errs == {} <==> Accepted(h)
  {
    var errs := set p | p in RequiredPaths && !RequiredText(PathValue(h, p));
    assert !Accepted(h) ==> errs != {} by {
      if !RequiredText(h.name) { assert HospitalName in errs; }
      else if !RequiredText(h.email) { assert HospitalEmail in errs; }
      else if !RequiredText(h.phone) { assert HospitalPhone in errs; }
      else if !RequiredText(h.address) { assert HospitalAddress in errs; }
      else if !RequiredText(h.city) { assert HospitalCity in errs; }
      else if !RequiredText(h.state) { assert HospitalState in errs; }
      else if !RequiredText(h.contactPerson) { assert HospitalContactPerson in errs; }
    }
    errs
  }

  /**
   * Validation of a hospital body: all or nothing. The stored record keeps
   * every field as sent; blood_group and unit are kept when present, whatever
   * their text, and left absent otherwise.
   */
  function ValidateHospital(h: HospitalInput): (r: Result<HospitalRecord, set<HospitalPath>>)
    ensures r.Success? <==> Accepted(h)
    ensures r.Failure? ==> r.error != {} && r.error == SchemaErrors(h)
    ensures r.Success? ==> forall p :: p in RequiredPaths ==> PathValue(h, p).Some? && PathValue(h, p).value != ""
    ensures r.Success? ==>
      && h.name == Some(r.value.name) && h.email == Some(r.value.email)
      && h.phone == Some(r.value.phone) && h.address == Some(r.value.address)
      && h.city == Some(r.value.city) && h.state == Some(r.value.state)
      && h.contactPerson == Some(r.value.contactPerson)
      && h.bloodGroup == r.value.bloodGroup && h.unit == r.value.unit
  {
    if Accepted(h) then
      Success(HospitalRecord(
        h.name.value, h.email.value, h.phone.value, h.address.value, h.city.value,
        h.state.value, h.bloodGroup, h.unit, h.contactPerson.value))
    else
      Failure(SchemaErrors(h))
  }

  /** The optional paths never fail, whatever they hold. */
  lemma OptionalPathsNeverFail(h: HospitalInput)
    ensures HospitalBloodGroup !in SchemaErrors(h) && HospitalUnit !in SchemaErrors(h)
    ensures Accepted(h) ==> Accepted(h.(bloodGroup := None, unit := None))
  {
  }

  type Id = nat

  datatype StoredHospital = StoredHospital(id: Id, hospital: HospitalRecord)

  /** Why a POST failed: the schema rejected the body, or the write threw. */
  datatype Cause = Invalid(paths: set<HospitalPath>) | StoreFault

  datatype Body =
    | Registered(message: string, stored: StoredHospital)
    | HospitalList(hospitals: seq<StoredHospital>)
    | Error(cause: Cause)

  datatype Response = Response(status: nat, body: Body)

  predicate DistinctIds(hs: seq<StoredHospital>) {
    forall i, j :: 0 <= i < j < |hs| ==> hs[i].id != hs[j].id
  }

  class HospitalStore {
    /** The collection in insertion order. */
    var hospitals: seq<StoredHospital>
    /** Every identifier handed out so far is below this one. */
    var nextId: Id

    ghost predicate Valid()
      reads this
    {
      && DistinctIds(hospitals)
      && forall i :: 0 <= i < |hospitals| ==> hospitals[i].id < nextId
    }

    constructor ()
      ensures Valid() && hospitals == []
    {
      hospitals, nextId := [], 0;
    }

    /**
     * POST: a body the schema rejects, or a failed write, answers 500 and
     * stores nothing (unlike donors, whose failures answer 400). Otherwise the
     * record is appended under a fresh identifier and returned with 201.
     */
    method PostHospital(body: HospitalInput, fault: bool) returns (resp: Response)
      requires Valid()
      modifies this
      ensures Valid()
      ensures |hospitals| >= |old(hospitals)| && hospitals[..|old(hospitals)|] == old(hospitals)
      ensures match ValidateHospital(body)
        case Failure(paths) =>
          resp == Response(500, Error(Invalid(paths))) && hospitals == old(hospitals)
        case Success(record) =>
          if fault then
            resp == Response(500, Error(StoreFault)) && hospitals == old(hospitals)
          else
            && resp.status == 201 && resp.body.Registered?
            && resp.body.message == "Hospital registered successfully"
            && resp.body.stored.hospital == record
            && (forall i :: 0 <= i < |old(hospitals)| ==> old(hospitals)[i].id != resp.body.stored.id)
            && hospitals == old(hospitals) + [resp.body.stored]
    {
      var checked := ValidateHospital(body);
      if checked.Failure? {
        resp := Response(500, Error(Invalid(checked.error)));
      } else if fault {
        resp := Response(500, Error(StoreFault));
      } else {
        var stored := StoredHospital(nextId, checked.value);
        hospitals := hospitals + [stored];
        nextId := nextId + 1;
        resp := Response(201, Registered("Hospital registered successfully", stored));
      }
    }

    /** GET: 200 with every stored hospital, in insertion order; the store is not changed. */
    method GetHospitals(fault: bool) returns (resp: Response)
      requires Valid()
      ensures fault ==> resp == Response(500, Error(StoreFault))
      ensures !fault ==> resp.status == 200 && resp.body.HospitalList?
      ensures !fault ==> resp.body.hospitals == hospitals
    {
      if fault {
        resp := Response(500, Error(StoreFault));
      } else {
        resp := Response(200, HospitalList(hospitals));
      }
    }
  }
}

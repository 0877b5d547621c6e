/**
 * The donor handlers of the backend (register, list, get by id, delete) over
 * the donor collection. Routes: POST /api/donors/register, GET
 * /api/donors/all, GET /api/donors/:id, DELETE /api/donors/:id.
 */
module DonorController {
  import opened Wrappers
  import opened Records
  import opened DonorModel

  /** Document identifiers; the store hands out fresh ones. */
  type Id = nat

  /** A stored document as the handlers return it: its identifier and its fields. */
  datatype StoredDonor = StoredDonor(id: Id, donor: DonorRecord)

  /** Why a request failed: the schema rejected the body, or the store call threw. */
  datatype Cause = Invalid(paths: set<DonorPath>) | StoreFault

  datatype Body =
    | Registered(message: string, stored: StoredDonor)
    | DonorList(donors: seq<StoredDonor>)
    | DonorFound(found: StoredDonor)
    | Message(message: string)
    | Error(message: string, cause: Cause)

  datatype Response = Response(status: nat, body: Body)

  predicate Distinct(ids: seq<Id>) {
    forall i, j :: 0 <= i < j < |ids| ==> ids[i] != ids[j]
  }

  /** The documents named by ids, in that order. */
  function Documents(ids: seq<Id>, docs: map<Id, DonorRecord>): (list: seq<StoredDonor>)
    requires forall id :: id in ids ==> id in docs
    ensures |list| == |ids|
    ensures forall i :: 0 <= i < |ids| ==> list[i] == StoredDonor(ids[i], docs[ids[i]])
  {
    if ids == [] then [] else [StoredDonor(ids[0], docs[ids[0]])] + Documents(ids[1..], docs)
  }

  /** ids with every occurrence of x dropped. */
  function Without(ids: seq<Id>, x: Id): (r: seq<Id>)
    ensures forall y :: y in r <==> y in ids && y != x
    ensures Distinct(ids) ==> Distinct(r)
  {
    if ids == [] then []
    else if ids[0] == x then Without(ids[1..], x)
    else
      var rest := Without(ids[1..], x);
      assert Distinct(ids) ==> ids[0] !in ids[1..];
      [ids[0]] + rest
  }

  /** A sequence of distinct identifiers has as many elements as its set. */
  lemma {:induction false} DistinctCount(ids: seq<Id>)
    requires Distinct(ids)
    ensures |set id: Id | id in ids| == |ids|
  {
    if ids != [] {
      DistinctCount(ids[1..]);
      var rest := set id: Id | id in ids[1..];
      assert (set id: Id | id in ids) == rest + {ids[0]};
      assert ids[0] !in rest;
    }
  }

  /** Listing distinct identifiers that are exactly the keys gives one entry per document. */
  lemma DocumentsCount(ids: seq<Id>, docs: map<Id, DonorRecord>)
    requires Distinct(ids) && forall id :: id in ids <==> id in docs
    ensures |Documents(ids, docs)| == |docs|
  {
    DistinctCount(ids);
    assert (set id: Id | id in ids) == docs.Keys;
  }

  /** Listing identifiers that are exactly the keys gives every document and nothing else. */
  lemma DocumentsMembers(ids: seq<Id>, docs: map<Id, DonorRecord>)
    requires forall id :: id in ids <==> id in docs
    ensures forall sd: StoredDonor :: sd in Documents(ids, docs) <==> sd.id in docs && docs[sd.id] == sd.donor
  {
    var list := Documents(ids, docs);
    forall sd: StoredDonor ensures sd in list <==> sd.id in docs && docs[sd.id] == sd.donor {
      if sd.id in docs && docs[sd.id] == sd.donor {
        var i :| 0 <= i < |ids| && ids[i] == sd.id;
        assert list[i] == sd;
      }
    }
  }

  /**
   * What the collection keeps: the insertion order lists each stored
   * identifier once, and every identifier is below the next one handed out.
   */
  ghost predicate StoreInvariant(docs: map<Id, DonorRecord>, order: seq<Id>, nextId: Id) {
    && Distinct(order)
    && (forall id :: id in order <==> id in docs)
    && (forall id :: id in docs ==> id < nextId)
  }

  /** Storing a record under the next identifier keeps the invariant. */
  lemma InsertKeepsInvariant(docs: map<Id, DonorRecord>, order: seq<Id>, nextId: Id, r: DonorRecord)
    requires StoreInvariant(docs, order, nextId)
    ensures nextId !in docs
    ensures StoreInvariant(docs[nextId := r], order + [nextId], nextId + 1)
  {
    assert forall i :: 0 <= i < |order| ==> order[i] in docs;
  }

  /** Deleting an identifier, stored or not, keeps the invariant. */
  lemma DeleteKeepsInvariant(docs: map<Id, DonorRecord>, order: seq<Id>, nextId: Id, id: Id)
    requires StoreInvariant(docs, order, nextId)
    ensures StoreInvariant(docs - {id}, Without(order, id), nextId)
  {
  }

  class DonorStore {
    /** The collection, by identifier. */
    var docs: map<Id, DonorRecord>
    /** The identifiers in insertion order: the order a full listing returns. */
    var order: seq<Id>
    /** Every identifier handed out so far is below this one. */
    var nextId: Id

    ghost predicate Valid()
      reads this
    {
      StoreInvariant(docs, order, nextId)
    }

    constructor ()
      ensures Valid() && docs == map[] && order == []
    {
      docs, order, nextId := map[], [], 0;
    }

    /** Every stored document, each once, in insertion order. */
    function Listing(): (list: seq<StoredDonor>)
      reads this
      requires Valid()
      ensures |list| == |docs|
      ensures forall sd: StoredDonor :: sd in list <==> sd.id in docs && docs[sd.id] == sd.donor
    {
      DocumentsCount(order, docs);
      DocumentsMembers(order, docs);
      Documents(order, docs)
    }

    /**
     * POST /register. A body the schema rejects answers 400 naming the failing
     * paths; a failed write also answers 400; in both cases nothing is stored.
     * Otherwise the normalised record is stored under a fresh identifier and
     * returned with 201; every other document stays as it was.
     */
    method RegisterDonor(body: DonorInput, fault: bool) returns (resp: Response)
      requires Valid()
      modifies this
      ensures Valid()
      ensures match ValidateDonor(body)
        case Failure(paths) =>
          && resp == Response(400, Error("Error registering donor", Invalid(paths)))
          && docs == old(docs) && order == old(order)
        case Success(record) =>
          if fault then
            && resp == Response(400, Error("Error registering donor", StoreFault))
            && docs == old(docs) && order == old(order)
          else
            && resp.status == 201 && resp.body.Registered?
            && resp.body.message == "Donor registered successfully"
            && resp.body.stored.donor == record
            && resp.body.stored.id !in old(docs)
            && docs == old(docs)[resp.body.stored.id := record]
            && order == old(order) + [resp.body.stored.id]
    {
      var checked := ValidateDonor(body);
      if checked.Failure? {
        resp := Response(400, Error("Error registering donor", Invalid(checked.error)));
      } else if fault {
        resp := Response(400, Error("Error registering donor", StoreFault));
      } else {
        var id := nextId;
        InsertKeepsInvariant(docs, order, nextId, checked.value);
        docs := docs[id := checked.value];
        order := order + [id];
        nextId := nextId + 1;
        resp := Response(201, Registered("Donor registered successfully", StoredDonor(id, checked.value)));
      }
    }

    /** GET /all: 200 with every stored document; the store is not changed. */
    method GetDonors(fault: bool) returns (resp: Response)
      requires Valid()
      ensures fault ==> resp == Response(500, Error("Error fetching donors", StoreFault))
      ensures !fault ==> resp.status == 200 && resp.body.DonorList?
      ensures !fault ==> |resp.body.donors| == |docs|
      ensures !fault ==> forall sd: StoredDonor :: sd in resp.body.donors <==> sd.id in docs && docs[sd.id] == sd.donor
    {
      if fault {
        resp := Response(500, Error("Error fetching donors", StoreFault));
      } else {
        resp := Response(200, DonorList(Listing()));
      }
    }

    /** GET /:id: 404 "Donor not found" exactly when no document has the id, else 200 with it. */
    method GetDonorById(id: Id, fault: bool) returns (resp: Response)
      requires Valid()
      ensures fault ==> resp == Response(500, Error("Error fetching donor", StoreFault))
      ensures !fault ==> (resp.status == 404 <==> id !in docs)
      ensures !fault && id !in docs ==> resp.body == Message("Donor not found")
      ensures !fault && id in docs ==> resp == Response(200, DonorFound(StoredDonor(id, docs[id])))
    {
      if fault {
        resp := Response(500, Error("Error fetching donor", StoreFault));
      } else if id !in docs {
        resp := Response(404, Message("Donor not found"));
      } else {
        resp := Response(200, DonorFound(StoredDonor(id, docs[id])));
      }
    }

    /**
     * DELETE /:id: answers 200 whether or not the id was stored; afterwards the
     * id is absent, at most one document is gone, and all others are unchanged.
     */
    method DeleteDonor(id: Id, fault: bool) returns (resp: Response)
      requires Valid()
      modifies this
      ensures Valid()
      ensures fault ==>
        && resp == Response(500, Error("Error deleting donor", StoreFault))
        && docs == old(docs) && order == old(order)
      ensures !fault ==>
        && resp == Response(200, Message("Donor deleted successfully"))
        && docs == old(docs) - {id} && order == Without(old(order), id)
      ensures !fault ==> |docs| == if id in old(docs) then |old(docs)| - 1 else |old(docs)|
    {
      if fault {
        resp := Response(500, Error("Error deleting donor", StoreFault));
      } else {
        DeleteKeepsInvariant(docs, order, nextId, id);
        docs := docs - {id};
        order := Without(order, id);
        assert docs.Keys == old(docs).Keys - {id};
        resp := Response(200, Message("Donor deleted successfully"));
      }
    }
  }

  /** Registering a valid body and then fetching the returned id gives the normalised record. */
  method RegisterThenFetch(store: DonorStore, body: DonorInput) returns (fetched: Response)
    requires store.Valid() && Accepted(body)
    modifies store
    ensures store.Valid()
    ensures fetched.status == 200 && fetched.body.DonorFound?
    ensures fetched.body.found.donor == Normalize(body)
  {
    assert ValidateDonor(body) == Success(Normalize(body));
    var created := store.RegisterDonor(body, false);
    fetched := store.GetDonorById(created.body.stored.id, false);
  }

  /** Deleting an id and then fetching it gives 404, whether or not it was stored. */
  method DeleteThenFetch(store: DonorStore, id: Id) returns (fetched: Response)
    requires store.Valid()
    modifies store
    ensures store.Valid()
    ensures fetched == Response(404, Message("Donor not found"))
  {
    var _ := store.DeleteDonor(id, false);
    fetched := store.GetDonorById(id, false);
  }
}

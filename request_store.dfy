/**
 * The two writes and one query the application makes on the document store:
 * creating a request (insert the request, then put the chosen ambulance on
 * call) and listing a user's requests, newest first.
 *
 * The store is a class holding the `requests` and `ambulances` collections as
 * maps, a source of fresh document ids and the server clock that stamps writes.
 */
module RequestStore {
  import opened Wrappers
  import opened Documents

  /** The argument of createAmbulanceRequest. */
  datatype RequestData = RequestData(
    userId: string,
    ambulanceId: DocId,
    pickupLocation: string,
    destination: string,
    patientInfo: PatientInfo,
    contactNumber: string,
    latitude: real,
    longitude: real)

  datatype StoreError =
    | InvalidGeoPoint              // the GeoPoint constructor rejects an out-of-range coordinate
    | NoDocumentToUpdate(id: DocId) // updating an ambulance document that does not exist

  /**
   * The request document written for `data` at server time t: a Pending request
   * located at (latitude, longitude). The contact number is not stored.
   */
  function NewRequest(data: RequestData, t: Timestamp): (r: Request)
    ensures r.status == Pending && r.createdAt == t && r.updatedAt == t
    ensures r.userId == data.userId && r.ambulanceId == Some(data.ambulanceId)
    ensures r.location == Some(GeoPoint(data.latitude, data.longitude))
    ensures r.pickupLocation == data.pickupLocation && r.destination == data.destination
    ensures r.patientInfo == data.patientInfo
  {
    Request(data.userId, Some(data.ambulanceId), data.pickupLocation, data.destination, data.patientInfo,
            Some(GeoPoint(data.latitude, data.longitude)), Pending, t, t)
  }

  /** The ambulance put on call for request `id` at server time t. */
  function Assigned(a: Ambulance, id: DocId, t: Timestamp): (b: Ambulance)
    ensures b.status == OnCall && b.currentRequestId == Some(id) && b.lastUpdated == t
    ensures b.location == a.location && b.vehicleNumber == a.vehicleNumber && b.driverName == a.driverName
    ensures b.driverPhone == a.driverPhone && b.kind == a.kind
  {
    a.(status := OnCall, currentRequestId := Some(id), lastUpdated := t)
  }

  /** Ordered by creation time, newest first. */
  predicate NewestFirst(s: seq<Doc<Request>>)
  {
    forall i, j :: 0 <= i < j < |s| ==> s[i].data.createdAt >= s[j].data.createdAt
  }

  /** The first position at which a request created at time t keeps s newest first. */
  function NewestSlot(s: seq<Doc<Request>>, t: Timestamp): (k: nat)
    ensures k <= |s|
    ensures forall i :: 0 <= i < k ==> s[i].data.createdAt >= t
    ensures NewestFirst(s) ==> forall i :: k <= i < |s| ==> s[i].data.createdAt < t
  {
    if s == [] || s[0].data.createdAt < t then 0 else 1 + NewestSlot(s[1..], t)
  }

  /** s with d inserted where its creation time keeps s newest first. */
  function InsertNewest(s: seq<Doc<Request>>, d: Doc<Request>): (r: seq<Doc<Request>>)
    ensures |r| == |s| + 1
    ensures multiset(r) == multiset(s) + multiset{d}
    ensures forall x :: x in r <==> x in s || x == d
    ensures NewestFirst(s) ==> NewestFirst(r)
  {
    var k := NewestSlot(s, d.data.createdAt);
    InsertAtContents(s, k, d);
    InsertAtNewestFirst(s, k, d);
    s[..k] + [d] + s[k..]
  }

  lemma InsertAtContents(s: seq<Doc<Request>>, k: nat, d: Doc<Request>)
    requires k <= |s|
    ensures multiset(s[..k] + [d] + s[k..]) == multiset(s) + multiset{d}
    ensures forall x :: x in s[..k] + [d] + s[k..] <==> x in s || x == d
  {
    var r := s[..k] + [d] + s[k..];
    assert s == s[..k] + s[k..];
    forall x
      ensures x in r <==> x in s || x == d
    {
      assert x in r <==> multiset(r)[x] > 0;
      assert x in s <==> multiset(s)[x] > 0;
    }
  }

  lemma InsertAtNewestFirst(s: seq<Doc<Request>>, k: nat, d: Doc<Request>)
    requires k <= |s|
    requires forall i :: 0 <= i < k ==> s[i].data.createdAt >= d.data.createdAt
    requires NewestFirst(s) ==> forall i :: k <= i < |s| ==> s[i].data.createdAt < d.data.createdAt
    ensures NewestFirst(s) ==> NewestFirst(s[..k] + [d] + s[k..])
  {
    var r := s[..k] + [d] + s[k..];
    forall i, j | 0 <= i < j < |r| && NewestFirst(s)
      ensures r[i].data.createdAt >= r[j].data.createdAt
    {
      if j < k {
        assert r[i] == s[i] && r[j] == s[j];
      } else if j == k {
        assert r[i] == s[i];
      } else if i == k {
        assert r[j] == s[j - 1];
      } else if i < k {
        assert r[i] == s[i] && r[j] == s[j - 1];
      } else {
        assert r[i] == s[i - 1] && r[j] == s[j - 1];
      }
    }
  }

  predicate DistinctIds(s: seq<Doc<Request>>)
  {
    forall i, j :: 0 <= i < j < |s| ==> s[i].id != s[j].id
  }

  lemma InsertNewestDistinct(s: seq<Doc<Request>>, d: Doc<Request>)
    requires DistinctIds(s) && forall x :: x in s ==> x.id != d.id
    ensures DistinctIds(InsertNewest(s, d))
  {
  }

  class DocumentStore {
    var requests: map<DocId, Request>
    var ambulances: map<DocId, Ambulance>
    /** The id the next inserted document receives. */
    var nextId: nat
    /** The server time the next write is stamped with. */
    var clock: Timestamp

    /** Every request id was issued by the id source, and every request was stamped in the past. */
    ghost predicate Valid()
      reads this
    {
      forall id :: id in requests ==> id < nextId && requests[id].createdAt < clock
    }

    constructor (fleet: map<DocId, Ambulance>)
      ensures Valid()
      ensures requests == map[] && ambulances == fleet
    {
      requests := map[];
      ambulances := fleet;
      nextId := 0;
      clock := 0;
    }

    /**
     * What createAmbulanceRequest does to the store: an out-of-range coordinate
     * throws before any write. Otherwise a Pending request is inserted under a
     * fresh id at the current time; then, if the ambulance exists, it is put on
     * call for that request one tick later and the id is returned; if it does
     * not, the update throws and the request stays written.
     */
    twostate predicate Created(data: RequestData, new result: Result<DocId, StoreError>)
      reads this
    {
      if !InGeoRange(data.latitude, data.longitude) then
        && result == Failure(InvalidGeoPoint)
        && requests == old(requests) && ambulances == old(ambulances)
        && nextId == old(nextId) && clock == old(clock)
      else
        var id := old(nextId);
        && id !in old(requests)
        && requests == old(requests)[id := NewRequest(data, old(clock))]
        && nextId == id + 1
        && if data.ambulanceId in old(ambulances) then
             && result == Success(id)
             && ambulances == old(ambulances)[data.ambulanceId :=
                                Assigned(old(ambulances)[data.ambulanceId], id, old(clock) + 1)]
             && clock == old(clock) + 2
           else
             && result == Failure(NoDocumentToUpdate(data.ambulanceId))
             && ambulances == old(ambulances)
             && clock == old(clock) + 1
    }

    /** createAmbulanceRequest(requestData). */
    method CreateAmbulanceRequest(data: RequestData) returns (result: Result<DocId, StoreError>)
      requires Valid()
      modifies this
      ensures Valid()
      ensures Created(data, result)
    {
      if !InGeoRange(data.latitude, data.longitude) {
        return Failure(InvalidGeoPoint);
      }
      var id := nextId;
      nextId := nextId + 1;
      var createdAt := clock;
      clock := clock + 1;
      requests := requests[id := NewRequest(data, createdAt)];
      if data.ambulanceId !in ambulances {
        return Failure(NoDocumentToUpdate(data.ambulanceId));
      }
      var updatedAt := clock;
      clock := clock + 1;
      ambulances := ambulances[data.ambulanceId := Assigned(ambulances[data.ambulanceId], id, updatedAt)];
      result := Success(id);
    }

    /**
     * getUserRequests(userId): the requests of that user, each once, with their
     * ids, newest first.
     */
    method GetUserRequests(userId: string) returns (r: seq<Doc<Request>>)
      ensures forall d :: d in r ==> d.id in requests && d.data == requests[d.id] && d.data.userId == userId
      ensures forall id :: id in requests && requests[id].userId == userId ==> Doc(id, requests[id]) in r
      ensures DistinctIds(r)
      ensures NewestFirst(r)
    {
      var pending := requests.Keys;
      r := [];
      while pending != {}
        invariant pending <= requests.Keys
        invariant forall d :: d in r ==>
                    d.id in requests && d.id !in pending && d.data == requests[d.id] && d.data.userId == userId
        invariant forall id :: id in requests && id !in pending && requests[id].userId == userId ==>
                    Doc(id, requests[id]) in r
        invariant DistinctIds(r)
        invariant NewestFirst(r)
        decreases pending
      {
        var id :| id in pending;
        pending := pending - {id};
        if requests[id].userId == userId {
          InsertNewestDistinct(r, Doc(id, requests[id]));
          r := InsertNewest(r, Doc(id, requests[id]));
        }
      }
    }
  }
}

/**
 * The request-status page: the ETA estimate and its display text, the badge
 * colour of a request status, and the page's view state as the initial load
 * and each live snapshot of the assigned ambulance change it.
 */
module RequestStatusPage {
  import opened Wrappers
  import opened Documents
  import NearbyAmbulances

  // ---------------------------------------------------------------------------
  // ETA
  // ---------------------------------------------------------------------------

  /** The assumed average speed of an ambulance, in km/h. */
  const AverageSpeedKmh: real := 40.0

  /**
   * Minutes to cover `distance` km at the average speed, rounded to the nearest
   * minute with halves rounded up (Math.round): 1.5 minutes per km.
   */
  function Eta(distance: real): (minutes: int)
    ensures minutes as real - 0.5 <= distance * 3.0 / 2.0 < minutes as real + 0.5
  {
    (distance / AverageSpeedKmh * 60.0 + 0.5).Floor
  }

  /** A farther ambulance never gets a smaller ETA. */
  lemma EtaMonotone(near: real, far: real)
    requires near <= far
    ensures Eta(near) <= Eta(far)
  {
  }

  /** 20 km at 40 km/h is 30 minutes; a distance of zero is zero minutes. */
  lemma EtaExamples()
    ensures Eta(20.0) == 30
    ensures Eta(0.0) == 0
  {
  }

  /** The ETA for an ambulance and a request, when both have a location. */
  function EtaFor(ambulance: Ambulance, request: Request, distance: NearbyAmbulances.DistanceFn): (eta: Option<int>)
    ensures eta.Some? <==> ambulance.location.Some? && request.location.Some?
    ensures eta.Some? ==>
              var a, r := ambulance.location.value, request.location.value;
              eta.value == Eta(distance(a.latitude, a.longitude, r.latitude, r.longitude))
  {
    if ambulance.location.Some? && request.location.Some? then
      var a, r := ambulance.location.value, request.location.value;
      Some(Eta(distance(a.latitude, a.longitude, r.latitude, r.longitude)))
    else
      None
  }

  /** The ETA after an ambulance update: recomputed when both locations are known, kept otherwise. */
  function NextEta(previous: Option<int>, ambulance: Ambulance, request: Request,
                   distance: NearbyAmbulances.DistanceFn): (eta: Option<int>)
    ensures ambulance.location.Some? && request.location.Some? ==>
              var a, r := ambulance.location.value, request.location.value;
              eta == Some(Eta(distance(a.latitude, a.longitude, r.latitude, r.longitude)))
    ensures ambulance.location.None? || request.location.None? ==> eta == previous
  {
    var recomputed := EtaFor(ambulance, request, distance);
    if recomputed.Some? then recomputed else previous
  }

  // ---------------------------------------------------------------------------
  // ETA display text
  // ---------------------------------------------------------------------------

  predicate IsDigits(s: string)
  {
    forall i :: 0 <= i < |s| ==> '0' <= s[i] <= '9'
  }

  function Digit(d: nat): (c: char)
    requires d < 10
    ensures '0' <= c <= '9'
  {
    ('0' as int + d) as char
  }

  /** The decimal notation of n, as a template literal writes an integer. */
  function DecimalString(n: nat): (s: string)
    ensures |s| >= 1 && IsDigits(s)
    ensures s[0] == '0' ==> n == 0
  {
    if n < 10 then [Digit(n)] else DecimalString(n / 10) + [Digit(n % 10)]
  }

  /** The number a string of decimal digits denotes. */
  function DecimalValue(s: string): nat
    requires IsDigits(s)
  {
    if s == [] then 0 else 10 * DecimalValue(s[..|s| - 1]) + (s[|s| - 1] as int - '0' as int)
  }

  lemma {:induction false} DecimalRoundTrip(n: nat)
    ensures DecimalValue(DecimalString(n)) == n
  {
    if n >= 10 {
      DecimalRoundTrip(n / 10);
      var s := DecimalString(n);
      assert s[..|s| - 1] == DecimalString(n / 10);
    }
  }

  const Calculating: string := "Calculating..."
  const LessThanOneMinute: string := "Less than 1 minute"
  const MinutesSuffix: string := " minutes"

  /**
   * The ETA line of the page: "Calculating..." while the ETA is unknown or
   * zero (both falsy), "Less than 1 minute" up to one minute, and otherwise
   * the number of minutes followed by " minutes".
   */
  function EtaText(eta: Option<int>): (text: string)
    ensures text == Calculating <==> eta.None? || eta == Some(0)
    ensures text == LessThanOneMinute <==> eta.Some? && eta.value != 0 && eta.value <= 1
    ensures eta.Some? && eta.value > 1 ==>
              && |text| > |MinutesSuffix|
              && text[|text| - |MinutesSuffix|..] == MinutesSuffix
              && IsDigits(text[..|text| - |MinutesSuffix|])
              && text[0] != '0'
              && DecimalValue(text[..|text| - |MinutesSuffix|]) == eta.value
  {
    if eta.None? || eta.value == 0 then Calculating
    else if eta.value <= 1 then LessThanOneMinute
    else
      var digits := DecimalString(eta.value);
      DecimalRoundTrip(eta.value);
      var text := digits + MinutesSuffix;
      assert text[|text| - 1] == 's';
      assert text[..|text| - |MinutesSuffix|] == digits;
      text
  }

  // ---------------------------------------------------------------------------
  // Status badge
  // ---------------------------------------------------------------------------

  const YellowBadge: string := "bg-yellow-100 text-yellow-800"
  const BlueBadge: string := "bg-blue-100 text-blue-800"
  const GreenBadge: string := "bg-green-100 text-green-800"
  const PurpleBadge: string := "bg-purple-100 text-purple-800"
  const RedBadge: string := "bg-red-100 text-red-800"
  const GrayBadge: string := "bg-gray-100 text-gray-800"

  /** The six statuses a request goes through. */
  const RequestStatuses: set<string> := {Pending, Accepted, OnTheWay, Arrived, Completed, Cancelled}

  /** The badge classes of the page's status chip. */
  function GetStatusColor(status: string): (badge: string)
    ensures badge in {YellowBadge, BlueBadge, GreenBadge, PurpleBadge, RedBadge, GrayBadge}
    ensures badge == GrayBadge <==> status !in RequestStatuses
  {
    if status == Pending then YellowBadge
    else if status == Accepted then BlueBadge
    else if status == OnTheWay then GreenBadge
    else if status == Arrived then PurpleBadge
    else if status == Completed then GreenBadge
    else if status == Cancelled then RedBadge
    else GrayBadge
  }

  /** The colour of each request status. */
  lemma StatusColorTable()
    ensures GetStatusColor(Pending) == YellowBadge
    ensures GetStatusColor(Accepted) == BlueBadge
    ensures GetStatusColor(OnTheWay) == GreenBadge
    ensures GetStatusColor(Arrived) == PurpleBadge
    ensures GetStatusColor(Completed) == GreenBadge
    ensures GetStatusColor(Cancelled) == RedBadge
  {
  }

  /** Two known statuses share a colour only when they are On The Way and Completed. */
  lemma StatusColorsDistinguish(s1: string, s2: string)
    requires s1 in RequestStatuses && s2 in RequestStatuses
    ensures GetStatusColor(s1) == GetStatusColor(s2) <==> s1 == s2 || {s1, s2} == {OnTheWay, Completed}
  {
  }

  // ---------------------------------------------------------------------------
  // View state
  // ---------------------------------------------------------------------------

  /** The outcome of reading one document. */
  datatype Read<T> = Exists(data: T) | Absent | ReadFailed

  /** A document the page reads. */
  datatype DocRef = RequestRef(id: DocId) | AmbulanceRef(id: DocId)

  /** The live subscription to an ambulance, with the request data its callback captured. */
  datatype Listener = Listener(ambulanceId: DocId, requestData: Doc<Request>)

  const RequestNotFound: string := "Request not found"
  const LoadFailed: string := "Failed to load request data"

  class RequestStatusView {
    var request: Option<Doc<Request>>
    var ambulance: Option<Doc<Ambulance>>
    var eta: Option<int>
    var loading: bool
    var error: Option<string>
    /** The subscription to the assigned ambulance, once opened. */
    var listener: Option<Listener>
    /** The documents read so far, in order. */
    ghost var fetched: seq<DocRef>

    constructor ()
      ensures request == None && ambulance == None && eta == None
      ensures loading && error == None
      ensures listener == None && fetched == []
    {
      request, ambulance, eta := None, None, None;
      loading, error := true, None;
      listener := None;
      fetched := [];
    }

    /**
     * What loading request `requestId` does to every field but `loading`. A
     * failed read of the request ends with the load error and a missing request
     * with "Request not found", and nothing else is read. A request found is
     * shown. Without an assigned ambulance, nothing more happens. With one, the
     * ambulance is read; a failed read ends with the load error; otherwise the
     * page subscribes to it, and an existing ambulance is shown with a fresh ETA
     * (kept as it was when a location is missing).
     */
    twostate predicate Loaded(requestId: DocId, requestRead: Read<Request>, ambulanceRead: Read<Ambulance>,
                              distance: NearbyAmbulances.DistanceFn)
      reads this
    {
      match requestRead
      case ReadFailed =>
        && error == Some(LoadFailed) && fetched == old(fetched) + [RequestRef(requestId)]
        && request == old(request) && ambulance == old(ambulance) && eta == old(eta)
        && listener == old(listener)
      case Absent =>
        && error == Some(RequestNotFound) && fetched == old(fetched) + [RequestRef(requestId)]
        && request == old(request) && ambulance == old(ambulance) && eta == old(eta)
        && listener == old(listener)
      case Exists(r) =>
        && request == Some(Doc(requestId, r))
        && match r.ambulanceId
           case None =>
             && fetched == old(fetched) + [RequestRef(requestId)]
             && ambulance == old(ambulance) && eta == old(eta) && error == old(error)
             && listener == old(listener)
           case Some(aid) =>
             && fetched == old(fetched) + [RequestRef(requestId), AmbulanceRef(aid)]
             && match ambulanceRead
                case ReadFailed =>
                  && error == Some(LoadFailed)
                  && ambulance == old(ambulance) && eta == old(eta) && listener == old(listener)
                case Absent =>
                  && listener == Some(Listener(aid, Doc(requestId, r)))
                  && ambulance == old(ambulance) && eta == old(eta) && error == old(error)
                case Exists(a) =>
                  && listener == Some(Listener(aid, Doc(requestId, r)))
                  && ambulance == Some(Doc(aid, a)) && eta == NextEta(old(eta), a, r, distance)
                  && error == old(error)
    }

    /** The load ended with the page subscribed to an ambulance: the path that returns early. */
    static predicate Subscribed(requestRead: Read<Request>, ambulanceRead: Read<Ambulance>)
    {
      requestRead.Exists? && requestRead.data.ambulanceId.Some? && !ambulanceRead.ReadFailed?
    }

    /**
     * fetchRequestData as written: on the path that subscribes to the ambulance
     * it returns the cleanup function before reaching setLoading(false), so
     * `loading` is cleared on every other path only.
     */
    method FetchRequestData(requestId: DocId, requestRead: Read<Request>, ambulanceRead: Read<Ambulance>,
                            distance: NearbyAmbulances.DistanceFn)
      modifies this
      ensures Loaded(requestId, requestRead, ambulanceRead, distance)
      ensures loading == if Subscribed(requestRead, ambulanceRead) then old(loading) else false
    {
      fetched := fetched + [RequestRef(requestId)];
      match requestRead {
        case ReadFailed =>
          error := Some(LoadFailed);
          loading := false;
          return;
        case Absent =>
          error := Some(RequestNotFound);
          loading := false;
          return;
        case Exists(r) =>
          var requestData := Doc(requestId, r);
          request := Some(requestData);
          if r.ambulanceId.Some? {
            var aid := r.ambulanceId.value;
            fetched := fetched + [AmbulanceRef(aid)];
            match ambulanceRead {
              case ReadFailed =>
                error := Some(LoadFailed);
                loading := false;
                return;
              case Absent =>
              case Exists(a) =>
                ambulance := Some(Doc(aid, a));
                eta := NextEta(eta, a, r, distance);
            }
            listener := Some(Listener(aid, requestData));
            return;
          }
          loading := false;
      }
    }

    /** fetchRequestData with `loading` cleared on the subscribing path too. */
    method FetchRequestDataCorrected(requestId: DocId, requestRead: Read<Request>, ambulanceRead: Read<Ambulance>,
                                     distance: NearbyAmbulances.DistanceFn)
      modifies this
      ensures Loaded(requestId, requestRead, ambulanceRead, distance)
      ensures !loading
    {
      FetchRequestData(requestId, requestRead, ambulanceRead, distance);
      loading := false;
    }

    /**
     * The live-update callback: a snapshot of an existing ambulance replaces the
     * ambulance shown and refreshes the ETA against the request captured at
     * subscription; a snapshot of a missing document changes nothing.
     */
    method OnSnapshot(snapshot: Option<Ambulance>, distance: NearbyAmbulances.DistanceFn)
      requires listener.Some?
      modifies this
      ensures snapshot.None? ==> unchanged(this)
      ensures snapshot.Some? ==>
                && listener == old(listener)
                && ambulance == Some(Doc(listener.value.ambulanceId, snapshot.value))
                && eta == NextEta(old(eta), snapshot.value, listener.value.requestData.data, distance)
                && request == old(request) && loading == old(loading) && error == old(error)
                && fetched == old(fetched)
    {
      if snapshot.Some? {
        ambulance := Some(Doc(listener.value.ambulanceId, snapshot.value));
        eta := NextEta(eta, snapshot.value, listener.value.requestData.data, distance);
      }
    }
  }

  /**
   * A request with an assigned ambulance whose read does not fail (the
   * ambulance exists or not): after the load and any number of live updates
   * the page is still loading, so it shows only the spinner.
   */
  method SpinnerNeverClears(requestId: DocId, request: Request, ambulanceRead: Read<Ambulance>,
                            distance: NearbyAmbulances.DistanceFn, updates: seq<Option<Ambulance>>)
    returns (stillLoading: bool)
    requires request.ambulanceId.Some? && !ambulanceRead.ReadFailed?
    ensures stillLoading
  {
    var view := new RequestStatusView();
    view.FetchRequestData(requestId, Exists(request), ambulanceRead, distance);
    var i := 0;
    while i < |updates|
      invariant 0 <= i <= |updates|
      invariant view.loading && view.listener.Some?
    {
      view.OnSnapshot(updates[i], distance);
      i := i + 1;
    }
    stillLoading := view.loading;
  }
}

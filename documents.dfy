/**
 * The records kept in the document store: ambulances and requests, plus the
 * identifiers and timestamps the store assigns.
 */
module Documents {
  import opened Wrappers

  /** Document identifiers are opaque: the model only compares them. */
  type DocId = nat

  /** Server timestamps are opaque but ordered, since the store sorts by them. */
  type Timestamp = nat

  /** A stored coordinate, in degrees. */
  datatype GeoPoint = GeoPoint(latitude: real, longitude: real)

  /** The range a stored coordinate must lie in; outside it the store refuses to build the point. */
  predicate InGeoRange(latitude: real, longitude: real)
  {
    -90.0 <= latitude <= 90.0 && -180.0 <= longitude <= 180.0
  }

  /** The data of one ambulance document. */
  datatype Ambulance = Ambulance(
    location: Option<GeoPoint>,
    status: string,
    vehicleNumber: string,
    driverName: string,
    driverPhone: string,
    kind: string,
    lastUpdated: Timestamp,
    currentRequestId: Option<DocId>)

  datatype PatientInfo = PatientInfo(
    name: string,
    age: string,
    gender: string,
    emergencyType: string,
    notes: string)

  /** The data of one request document. */
  datatype Request = Request(
    userId: string,
    ambulanceId: Option<DocId>,
    pickupLocation: string,
    destination: string,
    patientInfo: PatientInfo,
    location: Option<GeoPoint>,
    status: string,
    createdAt: Timestamp,
    updatedAt: Timestamp)

  /** A document as the application sees it: `{ id: doc.id, ...doc.data() }`. */
  datatype Doc<T> = Doc(id: DocId, data: T)

  // Ambulance statuses written or queried by the application.
  const Available: string := "Available"
  const OnCall: string := "On Call"

  // Request statuses.
  const Pending: string := "Pending"
  const Accepted: string := "Accepted"
  const OnTheWay: string := "On The Way"
  const Arrived: string := "Arrived"
  const Completed: string := "Completed"
  const Cancelled: string := "Cancelled"
}

/**
 * The ambulance request form: its initial state, the update a field edit
 * makes, the request payload built from it, and the submit handler that
 * guards on the signed-in user, calls the store and navigates.
 */
module RequestAmbulanceForm {
  import opened Wrappers
  import opened Documents
  import opened RequestStore

  /** The form state object: field name to value. */
  type FormData = map<string, string>

  /** The fields the form starts with. */
  const FormFields: set<string> :=
    {"pickupLocation", "destination", "patientName", "patientAge",
     "patientGender", "contactNumber", "emergencyType", "additionalNotes"}

  const InitialForm: FormData := map[
    "pickupLocation" := "",
    "destination" := "",
    "patientName" := "",
    "patientAge" := "",
    "patientGender" := "Male",
    "contactNumber" := "",
    "emergencyType" := "Medical",
    "additionalNotes" := ""]

  /** The initial form: gender Male, emergency type Medical, every other field empty. */
  lemma InitialFormDefaults()
    ensures InitialForm.Keys == FormFields
    ensures InitialForm["patientGender"] == "Male" && InitialForm["emergencyType"] == "Medical"
    ensures forall f :: f in InitialForm && f != "patientGender" && f != "emergencyType" ==> InitialForm[f] == ""
  {
  }

  /** handleChange: `{ ...prevState, [name]: value }`. */
  function HandleChange(form: FormData, name: string, value: string): (next: FormData)
    ensures next.Keys == form.Keys + {name}
    ensures next[name] == value
    ensures forall f :: f in form && f != name ==> next[f] == form[f]
  {
    form[name := value]
  }

  /** Editing one field twice keeps only the second value. */
  lemma HandleChangeLastWins(form: FormData, name: string, first: string, second: string)
    ensures HandleChange(HandleChange(form, name, first), name, second) == HandleChange(form, name, second)
  {
  }

  /** Edits of two different fields can be made in either order. */
  lemma HandleChangeCommutes(form: FormData, n1: string, v1: string, n2: string, v2: string)
    requires n1 != n2
    ensures HandleChange(HandleChange(form, n1, v1), n2, v2) == HandleChange(HandleChange(form, n2, v2), n1, v1)
  {
  }

  datatype User = User(uid: string)

  /** The requestData object of handleSubmit. */
  function RequestPayload(form: FormData, user: User, ambulanceId: DocId, userLocation: (real, real)): (data: RequestData)
    requires FormFields <= form.Keys
    ensures data.userId == user.uid && data.ambulanceId == ambulanceId
    ensures (data.latitude, data.longitude) == userLocation
    ensures data.pickupLocation == form["pickupLocation"] && data.destination == form["destination"]
    ensures data.contactNumber == form["contactNumber"]
    ensures data.patientInfo == PatientInfo(form["patientName"], form["patientAge"], form["patientGender"],
                                            form["emergencyType"], form["additionalNotes"])
  {
    RequestData(
      user.uid, ambulanceId, form["pickupLocation"], form["destination"],
      PatientInfo(form["patientName"], form["patientAge"], form["patientGender"],
                  form["emergencyType"], form["additionalNotes"]),
      form["contactNumber"], userLocation.0, userLocation.1)
  }

  /** The form fields a stored request holds: every one but the contact number. */
  function StoredFields(r: Request): FormData
  {
    map[
      "pickupLocation" := r.pickupLocation,
      "destination" := r.destination,
      "patientName" := r.patientInfo.name,
      "patientAge" := r.patientInfo.age,
      "patientGender" := r.patientInfo.gender,
      "emergencyType" := r.patientInfo.emergencyType,
      "additionalNotes" := r.patientInfo.notes]
  }

  /**
   * Submitting a form stores every one of its fields except the contact number,
   * under the signed-in user's id and the chosen ambulance, at the user's
   * position, as a Pending request.
   */
  lemma SubmittedFormIsStored(form: FormData, user: User, ambulanceId: DocId,
                               userLocation: (real, real), t: Timestamp)
    requires form.Keys == FormFields
    ensures var r := NewRequest(RequestPayload(form, user, ambulanceId, userLocation), t);
            && StoredFields(r) == form - {"contactNumber"}
            && r.userId == user.uid && r.ambulanceId == Some(ambulanceId)
            && r.location == Some(GeoPoint(userLocation.0, userLocation.1))
            && r.status == Pending
  {
  }

  /** Where the component sends the user. */
  datatype Route = LoginRoute | RequestStatusRoute(requestId: DocId)

  const SubmitFailed: string := "Failed to request ambulance. Please try again."

  class RequestForm {
    var formData: FormData
    var loading: bool
    var error: Option<string>
    /** The last navigation the component made. */
    var route: Option<Route>

    /** Edits only ever add fields, so the initial ones are always there. */
    ghost predicate Valid()
      reads this
    {
      FormFields <= formData.Keys
    }

    constructor ()
      ensures Valid()
      ensures formData == InitialForm && !loading && error == None && route == None
    {
      formData := InitialForm;
      loading, error := false, None;
      route := None;
    }

    /** The change handler of every input. */
    method Change(name: string, value: string)
      requires Valid()
      modifies this
      ensures Valid()
      ensures formData == HandleChange(old(formData), name, value)
      ensures loading == old(loading) && error == old(error) && route == old(route)
    {
      formData := HandleChange(formData, name, value);
    }

    /**
     * handleSubmit. Without a signed-in user: go to the login page and nothing
     * else. Otherwise `loading` is set and `error` cleared; a missing ambulance
     * or position throws while the payload is built; else the request is
     * created. On success the page goes to the request's status page, on any
     * failure the error message is shown and the page stays; `loading` ends
     * false either way. `submitted` is what the store call returned, if it was
     * made.
     */
    method HandleSubmit(currentUser: Option<User>, ambulance: Option<Doc<Ambulance>>,
                        userLocation: Option<(real, real)>, store: DocumentStore)
      returns (submitted: Option<Result<DocId, StoreError>>)
      requires Valid() && store.Valid()
      modifies this, store
      ensures Valid() && store.Valid() && formData == old(formData)
      ensures currentUser.None? ==>
                && submitted == None && route == Some(LoginRoute)
                && loading == old(loading) && error == old(error)
                && unchanged(store)
      ensures currentUser.Some? && (ambulance.None? || userLocation.None?) ==>
                && submitted == None && route == old(route)
                && !loading && error == Some(SubmitFailed)
                && unchanged(store)
      ensures currentUser.Some? && ambulance.Some? && userLocation.Some? ==>
                && submitted.Some?
                && store.Created(RequestPayload(old(formData), currentUser.value, ambulance.value.id,
                                                userLocation.value), submitted.value)
                && !loading
                && match submitted.value
                   case Success(id) => route == Some(RequestStatusRoute(id)) && error == None
                   case Failure(_) => route == old(route) && error == Some(SubmitFailed)
    {
      if currentUser.None? {
        route := Some(LoginRoute);
        return None;
      }
      loading := true;
      error := None;
      if ambulance.None? || userLocation.None? {
        submitted := None;
        error := Some(SubmitFailed);
      } else {
        var data := RequestPayload(formData, currentUser.value, ambulance.value.id, userLocation.value);
        assert loading && error == None;  // the state shown while the store call is in flight
        var result := store.CreateAmbulanceRequest(data);
        submitted := Some(result);
        match result {
          case Success(id) => route := Some(RequestStatusRoute(id));
          case Failure(_) => error := Some(SubmitFailed);
        }
      }
      loading := false;
    }
  }
}

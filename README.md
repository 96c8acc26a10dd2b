# Ambulance request app — a Dafny model of its sequential core

The application shows nearby ambulances on a map, lets a signed-in user
request one, and shows the live status and ETA of that request. Around the
document store and the UI framework it has five pieces of sequential logic,
and this project models and proves each of them:

- **Nearby-ambulance ranking** (`getNearbyAmbulances`), in module
  `NearbyAmbulances`. The store lists the ambulances. The ranking keeps the
  Available ones, at most 20. It stamps each with its distance from the user,
  in place on an array. It keeps those within the radius (default 10 km,
  inclusive) and sorts them in place, nearest first, with a stable sort. The
  in-place method is proved equal to a functional specification
  (`Ranked`). Lemmas show that this specification is sorted, is a permutation
  of exactly the in-range candidates, and is stable.
- **The document store** (`createAmbulanceRequest`, `getUserRequests`), in
  module `RequestStore`. The class `DocumentStore` holds the `requests` and
  `ambulances` collections as maps, plus a fresh-id source and the server
  clock that stamps writes.
- **The request-status page** (`RequestStatus.jsx`), in module
  `RequestStatusPage`:
  - the ETA (`Math.round(distance / 40 * 60)`);
  - the ETA text;
  - the status badge colour;
  - the class `RequestStatusView`, whose fields are the page's `request`,
    `ambulance`, `eta`, `loading` and `error` state, changed by the initial
    load and by each live snapshot.
- **The request form** (`RequestAmbulance.jsx`), in module
  `RequestAmbulanceForm`. It covers the initial form, `handleChange` as a map
  update, the payload, and `handleSubmit` with its login guard,
  loading/error flags and navigation.
- **The dashboard's status colour** (`Dashboard.jsx`), in module `Dashboard`.
  A lemma relates it to the request-status page's colour lookup.

Shared records (ambulance and request documents, ids, timestamps) are in
`Documents`; `Option` and `Result` are in `Wrappers`.

The model follows the code in three places a reader might not expect:

- An ambulance snapshot without a location keeps the previous ETA; it does not
  recompute one.
- A request with no ambulance opens no subscription and clears `loading`.
- The path that does subscribe never clears `loading` (see Findings).

## Model

| member | source | states |
|---|---|---|
| `NearbyAmbulances.AvailableOf` | src/utils/ambulanceService.js:22-24 | a document is in the result exactly when it is listed and Available; the result is never longer than the listing |
| `NearbyAmbulances.AvailableOfCounts` | src/utils/ambulanceService.js:22-24 | each Available document is kept as often as the listing holds it; no other document is kept |
| `NearbyAmbulances.AvailableOfAppend` | src/utils/ambulanceService.js:22-24 | the filter works document by document: filtering a concatenation concatenates the filtered parts, so the listing order is kept |
| `NearbyAmbulances.CandidatePool` | src/utils/ambulanceService.js:21-33 | the pool is the first min(20, n) of the n Available documents, in listing order, each as a candidate with no distance yet; so it never holds more than 20, and drops none when there are at most 20 |
| `NearbyAmbulances.FirstUnlocated` | src/utils/ambulanceService.js:37-43 | the candidate the ranking throws on: the first one without a location; every one before it has a location |
| `NearbyAmbulances.WithinRadiusCounts` | src/utils/ambulanceService.js:37-50 | the radius filter keeps each candidate with distance `<=` radius as often as it occurs, and nothing else |
| `NearbyAmbulances.WithinRadiusWithDistance` | src/utils/ambulanceService.js:37-50 | the filter keeps equally distant candidates in their original order |
| `NearbyAmbulances.InsertPermutes` | src/utils/ambulanceService.js:53 | one insertion step of the sort adds exactly the inserted candidate |
| `NearbyAmbulances.InsertSorted` | src/utils/ambulanceService.js:53 | an insertion step keeps a distance-sorted list sorted |
| `NearbyAmbulances.InsertStable` | src/utils/ambulanceService.js:53 | an insertion step puts the new candidate behind every candidate at the same distance |
| `NearbyAmbulances.InsertByDistanceAt` | src/utils/ambulanceService.js:53 | an insertion step puts the candidate right after the last element no farther than it, when every element behind that one is farther |
| `NearbyAmbulances.SortSortedPermutation` | src/utils/ambulanceService.js:53 | the sort by distance yields a non-decreasing list that is a permutation of its input |
| `NearbyAmbulances.SortStable` | src/utils/ambulanceService.js:53 | the sort is stable: candidates at equal distance keep their relative order |
| `NearbyAmbulances.StampAllSetsDistance` | src/utils/ambulanceService.js:45-46 | every candidate, kept or not, gets its own distance from the user's position |
| `NearbyAmbulances.RankedSortedPermutation` | src/utils/ambulanceService.js:37-53 | the ranking is sorted nearest first and holds exactly the stamped candidates within the radius, each as often as in the pool; it is no longer than the pool, and empty for an empty pool |
| `NearbyAmbulances.RankedWithinRadius` | src/utils/ambulanceService.js:45-49 | every ranked ambulance carries a distance, and it is at most the radius |
| `NearbyAmbulances.RankedStable` | src/utils/ambulanceService.js:53 | ambulances at equal distance keep the store's listing order |
| `NearbyAmbulances.InsertInPlace` | src/utils/ambulanceService.js:53 | moving one element back into the sorted prefix of the array gives the functional insertion step; the rest of the array is untouched |
| `NearbyAmbulances.SortByDistanceInPlace` | src/utils/ambulanceService.js:53 | the in-place sort leaves the array equal to the stable sort by distance of its old contents |
| `NearbyAmbulances.SortFiltered` | src/utils/ambulanceService.js:53 | sorting the new array returned by the filter gives the stable sort by distance of the filtered candidates |
| `NearbyAmbulances.RankInPlace` | src/utils/ambulanceService.js:37-57 | if every candidate has a location, all of them are stamped in place and the result is the ranking; otherwise the candidates before the first one without a location are stamped, the rest are unchanged, and that candidate's error is returned |
| `NearbyAmbulances.GetNearbyAmbulances` | src/utils/ambulanceService.js:17-58 | with radius defaulting to 10, the result is the ranking of the candidate pool, or the missing-location error of its first candidate without a location |
| `RequestStore.NewestSlot` | src/utils/ambulanceService.js:96-100 | the position where a request belongs in a newest-first list: after every request at least as new, before every older one |
| `RequestStore.InsertNewest` | src/utils/ambulanceService.js:96-100 | inserting at that position adds exactly the new request (as a multiset) and keeps the list newest first |
| `RequestStore.InsertNewestDistinct` | src/utils/ambulanceService.js:103-106 | inserting a request with a new id keeps ids unique |
| `RequestStore.NewRequest` | src/utils/ambulanceService.js:65-75 | the stored request carries the caller's user, ambulance, pickup, destination and patient info, is located at (latitude, longitude), is Pending, and has `createdAt` = `updatedAt` = the server time of the write; nothing else (in particular no contact number) is stored |
| `RequestStore.Assigned` | src/utils/ambulanceService.js:78-83 | the ambulance becomes On Call for the new request, stamped with the write's server time; its location, vehicle, driver and type are unchanged |
| `RequestStore.DocumentStore.CreateAmbulanceRequest` | src/utils/ambulanceService.js:61-90 | outside the GeoPoint range nothing is written and it fails. Otherwise a Pending request located at (latitude, longitude) is stored under a fresh id with its user, ambulance, pickup, destination and patient info; the contact number is not stored. Then, if the ambulance exists, it becomes On Call with `currentRequestId` = the new id, one tick after the request, with its other fields unchanged, and the id is returned. If it does not exist, the update fails and the request stays written |
| `RequestStore.DocumentStore.GetUserRequests` | src/utils/ambulanceService.js:93-111 | returns every request of the user and only those, each once, with its id and stored data, ordered by `createdAt` descending |
| `RequestStatusPage.Eta` | src/pages/RequestStatus.jsx:107-109 | the ETA is the nearest whole number of minutes (halves rounded up) to 1.5 minutes per km |
| `RequestStatusPage.EtaMonotone` | src/pages/RequestStatus.jsx:124-133 | a farther ambulance never gets a smaller ETA |
| `RequestStatusPage.EtaExamples` | src/pages/RequestStatus.jsx:131-133 | 20 km gives 30 minutes; 0 km gives 0 |
| `RequestStatusPage.EtaFor` | src/pages/RequestStatus.jsx:99-110 | an ETA exists exactly when both the ambulance and the request have a location, and it is then the ETA of the distance between them |
| `RequestStatusPage.NextEta` | src/pages/RequestStatus.jsx:123-134 | the ETA is recomputed from the ambulance's and the request's locations when both exist, and kept otherwise |
| `RequestStatusPage.DecimalString` | src/pages/RequestStatus.jsx:357 | an integer is written as a non-empty string of decimal digits with no leading zero |
| `RequestStatusPage.DecimalRoundTrip` | src/pages/RequestStatus.jsx:357 | reading back the digits written for n gives n |
| `RequestStatusPage.EtaText` | src/pages/RequestStatus.jsx:356-360 | "Calculating..." exactly when the ETA is null or 0; "Less than 1 minute" exactly when it is non-zero and at most 1; otherwise the ETA's decimal digits, with no leading zero, followed by " minutes" |
| `RequestStatusPage.GetStatusColor` | src/pages/RequestStatus.jsx:167-184 | always one of the six badge classes, and gray exactly for a status outside the six request statuses |
| `RequestStatusPage.StatusColorTable` | src/pages/RequestStatus.jsx:169-180 | Pending is yellow, Accepted blue, On The Way green, Arrived purple, Completed green and Cancelled red |
| `RequestStatusPage.StatusColorsDistinguish` | src/pages/RequestStatus.jsx:167-184 | two request statuses share a colour only if they are equal, or are On The Way and Completed (both green) |
| `RequestStatusPage.RequestStatusView.constructor` | src/pages/RequestStatus.jsx:61-65 | the page starts loading, with no request, ambulance, ETA or error |
| `RequestStatusPage.RequestStatusView.FetchRequestData` | src/pages/RequestStatus.jsx:67-150 | a failed read sets the load error; a missing request sets "Request not found" and reads nothing else; a request without an ambulance is shown and opens no subscription; an assigned ambulance is read once, shown with a fresh ETA if it exists, and subscribed to; `loading` is cleared on every path except the one that subscribes |
| `RequestStatusPage.RequestStatusView.FetchRequestDataCorrected` | src/pages/RequestStatus.jsx:138-141 | the same state changes, with `loading` cleared on every path |
| `RequestStatusPage.RequestStatusView.OnSnapshot` | src/pages/RequestStatus.jsx:114-136 | a snapshot of a missing document changes nothing; otherwise it replaces the ambulance and refreshes the ETA against the request captured at subscription, leaving the rest as it was |
| `RequestStatusPage.SpinnerNeverClears` | src/pages/RequestStatus.jsx:138-141 | for any request with an assigned ambulance whose read does not fail (found or absent), any distance function and any sequence of live updates, the page is still loading after the load and the updates |
| `RequestAmbulanceForm.InitialFormDefaults` | src/components/ui/RequestAmbulance.jsx:12-21 | the form starts with its eight fields: gender Male, emergency type Medical, every other field empty |
| `RequestAmbulanceForm.HandleChange` | src/components/ui/RequestAmbulance.jsx:23-29 | an edit sets exactly the named field to the value and leaves every other field as it was |
| `RequestAmbulanceForm.HandleChangeLastWins` | src/components/ui/RequestAmbulance.jsx:23-29 | of two edits of one field, the second wins |
| `RequestAmbulanceForm.HandleChangeCommutes` | src/components/ui/RequestAmbulance.jsx:23-29 | edits of different fields commute |
| `RequestAmbulanceForm.RequestPayload` | src/components/ui/RequestAmbulance.jsx:43-58 | the payload carries the signed-in user's uid, the chosen ambulance, the user's position and the form's pickup, destination, contact number and patient fields |
| `RequestAmbulanceForm.SubmittedFormIsStored` | src/components/ui/RequestAmbulance.jsx:43-58 | the stored request holds every form field except the contact number, the user's uid, the chosen ambulance, the user's position and status Pending |
| `RequestAmbulanceForm.RequestForm.constructor` | src/components/ui/RequestAmbulance.jsx:10-21 | the form starts with the initial fields, not loading and with no error |
| `RequestAmbulanceForm.RequestForm.Change` | src/components/ui/RequestAmbulance.jsx:23-29 | the form state becomes the edited form; the flags and navigation are untouched |
| `RequestAmbulanceForm.RequestForm.HandleSubmit` | src/components/ui/RequestAmbulance.jsx:31-68 | with no user it only navigates to login and leaves loading, error and the store alone. With a user, a missing ambulance or position gives the error and no write. Otherwise the store call is made with the payload built from the form. Success navigates to that request's status page with no error; failure shows the error and stays. `loading` ends false in both cases; the form is unchanged |
| `Dashboard.GetStatusColor` | src/pages/Dashboard.jsx:51-64 | gray exactly for a status other than Pending, Accepted, Completed and Cancelled |
| `Dashboard.StatusColorTable` | src/pages/Dashboard.jsx:53-60 | Pending is yellow, Accepted blue, Completed green and Cancelled red |
| `Dashboard.AgreesWithRequestStatusPage` | src/pages/Dashboard.jsx:51-64 | the dashboard and the status page disagree exactly on On The Way and Arrived, which the dashboard shows gray |

## Left out

- The haversine distance (`calculateDistance` and its copies) is floating-point trigonometry. It is a function parameter of type `DistanceFn`, and distances are reals.
- Reals have no NaN. `Math.round(NaN)` and NaN comparisons in the sort comparator are not modelled.
- Firestore is replaced by:
  - a listing of the ambulances collection;
  - the `DocumentStore` class;
  - the `Read` outcomes of single-document reads.
- The store's ordering of the ambulance listing by `lastUpdated` is the store's job. The listing is given in that order.
- Network and permission failures of the queries in `getNearbyAmbulances` and `getUserRequests` are not modelled. Only the missing-location failure of the ranking is.
- `RequestStore.DocumentStore.CreateAmbulanceRequest`: a write the store rejects is not modelled. An `addDoc` rejected for reasons other than the GeoPoint range would leave nothing written. An `updateDoc` rejected for reasons other than a missing ambulance would leave the request written. In both cases the call would throw. The model fails only on an out-of-range position or a missing ambulance.
- `RequestAmbulanceForm.RequestForm.HandleSubmit`: because of the line above, a submission with a signed-in user, an in-range position and an existing ambulance always succeeds in the model. In the app, a rejected write reaches the error branch instead, as any store failure does.
- `serverTimestamp()` is a clock that advances by one per write.
- Document ids are opaque naturals, not strings.
- The range check of the GeoPoint constructor is the store library's own behaviour. It is modelled as a failure before any write.
- `Array.prototype.sort` is modelled as an in-place insertion sort. Both are stable.
- `RequestStore.DocumentStore.GetUserRequests`: the order among requests with equal `createdAt` is left unspecified.
- The `createdAt?.toDate() || new Date()` fallback in `fetchRequestData` is not modelled: requests always carry a creation time here.
- The listener's lifecycle is not modelled:
  - asynchronous delivery;
  - the returned cleanup, which is never registered as an effect cleanup;
  - unsubscribing.
- `RequestAmbulanceForm.RequestForm.HandleSubmit`: the state during the store call (`loading` true, `error` null) is asserted in the body, but no postcondition states it.
- `console.error` logging and `e.preventDefault()` are not modelled.
- Rendering, JSX markup, Leaflet maps, routing tables and the layout and guard components are not modelled. Nor are `src/pages/Home.jsx` (geolocation, its own ambulance query and badge colours) and the dashboard's auth listener and request query, which duplicates `getUserRequests`.

## Findings

| source | as written | input that shows it | evidently intended | confidence | as-written member | corrected member |
|---|---|---|---|---|---|---|
| src/pages/RequestStatus.jsx:138-141 | When the request has an `ambulanceId`, `fetchRequestData` returns `() => unsubscribe()` at line 138, before `setLoading(false)` at line 141. Nothing else clears `loading`, so the page renders only the spinner (lines 186-192). | Any request whose `ambulanceId` is set and whose ambulance read does not fail (the ambulance exists or not), followed by any sequence of live snapshots. | `loading` becomes false once the request and ambulance are loaded, so the details and ETA are shown. | high; not executed | `RequestStatusPage.SpinnerNeverClears` | `RequestStatusPage.RequestStatusView.FetchRequestDataCorrected` |

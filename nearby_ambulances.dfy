/**
 * Ranking of nearby ambulances: take the available ambulances the store lists,
 * stamp each with its distance from the user, keep those within the radius and
 * sort them, nearest first.
 *
 * The distance itself (a haversine formula over floating point) is a parameter:
 * only the list logic around it is modelled.
 */
module NearbyAmbulances {
  import opened Wrappers
  import opened Documents

  /** Radius used when the caller gives none, in km. */
  const DefaultRadius: real := 10.0

  /** At most this many available ambulances are fetched before ranking. */
  const PoolLimit: nat := 20

  /** Distance in km from (lat1, lon1) to (lat2, lon2). */
  type DistanceFn = (real, real, real, real) -> real

  /** An ambulance as the ranking handles it: id, stored data and the distance field it attaches. */
  datatype Candidate = Candidate(id: DocId, data: Ambulance, distance: Option<real>)

  /** Reading `location.latitude` of a candidate without a location throws. */
  datatype RankError = MissingLocation(id: DocId)

  // ---------------------------------------------------------------------------
  // The candidate pool
  // ---------------------------------------------------------------------------

  /** The listed documents whose status is Available, in listing order. */
  function AvailableOf(listing: seq<Doc<Ambulance>>): (r: seq<Doc<Ambulance>>)
    ensures |r| <= |listing|
    ensures forall d :: d in r <==> d in listing && d.data.status == Available
  {
    if listing == [] then []
    else (if listing[0].data.status == Available then [listing[0]] else []) + AvailableOf(listing[1..])
  }

  /** The filter keeps every Available document as often as the listing holds it, and nothing else. */
  lemma {:induction false} AvailableOfCounts(listing: seq<Doc<Ambulance>>)
    ensures forall d :: multiset(AvailableOf(listing))[d] ==
                        if d.data.status == Available then multiset(listing)[d] else 0
  {
    if listing != [] {
      AvailableOfCounts(listing[1..]);
      assert listing == [listing[0]] + listing[1..];
    }
  }

  /** The filter works document by document, so it keeps the listing's order. */
  lemma {:induction false} AvailableOfAppend(a: seq<Doc<Ambulance>>, b: seq<Doc<Ambulance>>)
    ensures AvailableOf(a + b) == AvailableOf(a) + AvailableOf(b)
  {
    if a == [] {
      assert a + b == b;
    } else {
      assert (a + b)[1..] == a[1..] + b;
      AvailableOfAppend(a[1..], b);
    }
  }

  /**
   * The query of the ranking: available ambulances, in the order the store lists
   * them (most recently updated first), at most PoolLimit of them, with no distance yet.
   */
  function CandidatePool(listing: seq<Doc<Ambulance>>): (pool: seq<Candidate>)
    ensures |pool| <= PoolLimit && |pool| <= |listing|
    ensures forall c :: c in pool ==>
              Doc(c.id, c.data) in listing && c.data.status == Available && c.distance == None
    ensures |AvailableOf(listing)| <= PoolLimit ==> |pool| == |AvailableOf(listing)|
    ensures |AvailableOf(listing)| >= PoolLimit ==> |pool| == PoolLimit
    ensures forall i :: 0 <= i < |pool| ==>
              pool[i] == Candidate(AvailableOf(listing)[i].id, AvailableOf(listing)[i].data, None)
  {
    var avail := AvailableOf(listing);
    var n := if |avail| < PoolLimit then |avail| else PoolLimit;
    seq(n, i requires 0 <= i < n => Candidate(avail[i].id, avail[i].data, None))
  }

  // ---------------------------------------------------------------------------
  // Stamping and filtering
  // ---------------------------------------------------------------------------

  predicate Located(c: Candidate)
  {
    c.data.location.Some?
  }

  predicate AllLocated(s: seq<Candidate>)
  {
    forall i :: 0 <= i < |s| ==> Located(s[i])
  }

  /** The distance from the user's position to a candidate's location. */
  function DistanceFrom(latitude: real, longitude: real, c: Candidate, distance: DistanceFn): real
    requires Located(c)
  {
    distance(latitude, longitude, c.data.location.value.latitude, c.data.location.value.longitude)
  }

  /** The candidate with its distance field set. */
  function Stamp(c: Candidate, latitude: real, longitude: real, distance: DistanceFn): Candidate
    requires Located(c)
  {
    c.(distance := Some(DistanceFrom(latitude, longitude, c, distance)))
  }

  function StampAll(s: seq<Candidate>, latitude: real, longitude: real, distance: DistanceFn): seq<Candidate>
    requires AllLocated(s)
  {
    seq(|s|, i requires 0 <= i < |s| => Stamp(s[i], latitude, longitude, distance))
  }

  /** Stamping one more candidate of the pool extends the stamped prefix by that candidate's stamp. */
  lemma StampStep(pool: seq<Candidate>, i: nat, latitude: real, longitude: real, distance: DistanceFn)
    requires i < |pool| && AllLocated(pool[..i]) && Located(pool[i])
    ensures AllLocated(pool[..i + 1])
    ensures StampAll(pool[..i + 1], latitude, longitude, distance) ==
            StampAll(pool[..i], latitude, longitude, distance) + [Stamp(pool[i], latitude, longitude, distance)]
  {
  }

  /** The position of the first candidate without a location: the one the ranking throws on. */
  function FirstUnlocated(s: seq<Candidate>): (k: nat)
    requires !AllLocated(s)
    ensures k < |s| && !Located(s[k])
    ensures forall j :: 0 <= j < k ==> Located(s[j])
    ensures AllLocated(s[..k])
  {
    if !Located(s[0]) then 0 else 1 + FirstUnlocated(s[1..])
  }

  lemma FirstUnlocatedAt(s: seq<Candidate>, i: nat)
    requires i < |s| && AllLocated(s[..i]) && !Located(s[i])
    ensures !AllLocated(s) && FirstUnlocated(s) == i
  {
    forall j | 0 <= j < i
      ensures Located(s[j])
    {
      assert s[..i][j] == s[j];
    }
  }

  /** The distance the sort compares. */
  function DistanceKey(c: Candidate): real
  {
    if c.distance.Some? then c.distance.value else 0.0
  }

  /** The candidates whose distance is at most the radius, in their original order (the test is inclusive). */
  function WithinRadius(s: seq<Candidate>, radius: real): (r: seq<Candidate>)
    ensures |r| <= |s|
  {
    if s == [] then []
    else WithinRadius(s[..|s| - 1], radius) + (if DistanceKey(s[|s| - 1]) <= radius then [s[|s| - 1]] else [])
  }

  /** The candidates at exactly distance k, in their order in s. */
  function WithDistance(s: seq<Candidate>, k: real): seq<Candidate>
  {
    if s == [] then []
    else WithDistance(s[..|s| - 1], k) + (if DistanceKey(s[|s| - 1]) == k then [s[|s| - 1]] else [])
  }

  /** WithinRadius keeps every in-range candidate as often as it occurs, and nothing else. */
  lemma {:induction false} WithinRadiusCounts(s: seq<Candidate>, radius: real)
    ensures forall c :: multiset(WithinRadius(s, radius))[c] ==
                        if DistanceKey(c) <= radius then multiset(s)[c] else 0
  {
    if s != [] {
      var init, last := s[..|s| - 1], s[|s| - 1];
      WithinRadiusCounts(init, radius);
      assert s == init + [last];
    }
  }

  /** Filtering by radius leaves the order of equally distant candidates alone. */
  lemma {:induction false} WithinRadiusWithDistance(s: seq<Candidate>, radius: real, k: real)
    ensures WithDistance(WithinRadius(s, radius), k) == if k <= radius then WithDistance(s, k) else []
  {
    if s != [] {
      var init, last := s[..|s| - 1], s[|s| - 1];
      WithinRadiusWithDistance(init, radius, k);
      var w := WithinRadius(init, radius);
      assert WithinRadius(s, radius) == w + (if DistanceKey(last) <= radius then [last] else []);
      assert WithDistance(s, k) == WithDistance(init, k) + (if DistanceKey(last) == k then [last] else []);
      if DistanceKey(last) <= radius {
        assert (w + [last])[..|w|] == w;
        assert WithDistance(w + [last], k) == WithDistance(w, k) + (if DistanceKey(last) == k then [last] else []);
      } else {
        assert w + [] == w;
      }
    }
  }

  // ---------------------------------------------------------------------------
  // Stable sort by distance
  // ---------------------------------------------------------------------------

  predicate SortedByDistance(s: seq<Candidate>)
  {
    forall i, j :: 0 <= i < j < |s| ==> DistanceKey(s[i]) <= DistanceKey(s[j])
  }

  /** Inserts x after every trailing element no farther than x, scanning from the back. */
  function InsertByDistance(s: seq<Candidate>, x: Candidate): seq<Candidate>
  {
    if s == [] || DistanceKey(s[|s| - 1]) <= DistanceKey(x) then s + [x]
    else InsertByDistance(s[..|s| - 1], x) + [s[|s| - 1]]
  }

  /** Insertion sort by distance: the stable ascending order of s. */
  function SortByDistance(s: seq<Candidate>): seq<Candidate>
  {
    if s == [] then [] else InsertByDistance(SortByDistance(s[..|s| - 1]), s[|s| - 1])
  }

  /** Inserting x lands it after the last element no farther than it, when everything after that is farther. */
  lemma {:induction false} InsertByDistanceAt(s: seq<Candidate>, x: Candidate, j: nat)
    requires j <= |s|
    requires j == 0 || DistanceKey(s[j - 1]) <= DistanceKey(x)
    requires forall k :: j <= k < |s| ==> DistanceKey(s[k]) > DistanceKey(x)
    ensures InsertByDistance(s, x) == s[..j] + [x] + s[j..]
    decreases |s|
  {
    if j == |s| {
      assert s[..j] == s && s[j..] == [];
    } else {
      var init, last := s[..|s| - 1], s[|s| - 1];
      InsertByDistanceAt(init, x, j);
      assert init[..j] == s[..j];
      assert init[j..] + [last] == s[j..];
    }
  }

  lemma {:induction false} InsertPermutes(s: seq<Candidate>, x: Candidate)
    ensures multiset(InsertByDistance(s, x)) == multiset(s) + multiset{x}
  {
    if s != [] && DistanceKey(s[|s| - 1]) > DistanceKey(x) {
      var init, last := s[..|s| - 1], s[|s| - 1];
      InsertPermutes(init, x);
      assert s == init + [last];
    }
  }

  lemma {:induction false} InsertSorted(s: seq<Candidate>, x: Candidate)
    requires SortedByDistance(s)
    ensures SortedByDistance(InsertByDistance(s, x))
  {
    if s != [] && DistanceKey(s[|s| - 1]) > DistanceKey(x) {
      var init, last := s[..|s| - 1], s[|s| - 1];
      InsertSorted(init, x);
      InsertPermutes(init, x);
      var r := InsertByDistance(init, x);
      forall i | 0 <= i < |r|
        ensures DistanceKey(r[i]) <= DistanceKey(last)
      {
        assert r[i] in multiset(init) + multiset{x};
        if r[i] != x {
          var j :| 0 <= j < |init| && init[j] == r[i];
          assert s[j] == init[j];
        }
      }
    }
  }

  /** Inserting x adds it behind every element of equal distance. */
  lemma {:induction false} InsertStable(s: seq<Candidate>, x: Candidate, k: real)
    ensures WithDistance(InsertByDistance(s, x), k) ==
            WithDistance(s, k) + (if DistanceKey(x) == k then [x] else [])
  {
    if s == [] || DistanceKey(s[|s| - 1]) <= DistanceKey(x) {
      assert (s + [x])[..|s|] == s;
    } else {
      var init, last := s[..|s| - 1], s[|s| - 1];
      InsertStable(init, x, k);
      var r := InsertByDistance(init, x);
      assert (r + [last])[..|r|] == r;
    }
  }

  lemma {:induction false} SortSortedPermutation(s: seq<Candidate>)
    ensures SortedByDistance(SortByDistance(s))
    ensures multiset(SortByDistance(s)) == multiset(s)
  {
    if s != [] {
      var init, last := s[..|s| - 1], s[|s| - 1];
      assert SortByDistance(s) == InsertByDistance(SortByDistance(init), last);
      SortSortedPermutation(init);
      InsertSorted(SortByDistance(init), last);
      InsertPermutes(SortByDistance(init), last);
      assert s == init + [last];
    }
  }

  /** The sort is stable: candidates at the same distance keep their relative order. */
  lemma {:induction false} SortStable(s: seq<Candidate>, k: real)
    ensures WithDistance(SortByDistance(s), k) == WithDistance(s, k)
  {
    if s != [] {
      var init, last := s[..|s| - 1], s[|s| - 1];
      SortStable(init, k);
      InsertStable(SortByDistance(init), last, k);
    }
  }

  // ---------------------------------------------------------------------------
  // The ranking as a whole
  // ---------------------------------------------------------------------------

  /** What the ranking returns for a pool in which every candidate has a location. */
  function Ranked(pool: seq<Candidate>, latitude: real, longitude: real, radius: real, distance: DistanceFn): seq<Candidate>
    requires AllLocated(pool)
  {
    SortByDistance(WithinRadius(StampAll(pool, latitude, longitude, distance), radius))
  }

  /** Every candidate, including those filtered out later, gets the distance from the user's position. */
  lemma StampAllSetsDistance(pool: seq<Candidate>, latitude: real, longitude: real, distance: DistanceFn)
    requires AllLocated(pool)
    ensures var stamped := StampAll(pool, latitude, longitude, distance);
            && |stamped| == |pool|
            && forall i :: 0 <= i < |pool| ==>
                 stamped[i] == pool[i].(distance := Some(DistanceFrom(latitude, longitude, pool[i], distance)))
  {
  }

  /**
   * The ranking is sorted nearest first and holds exactly the stamped
   * candidates within the radius, each as often as in the pool; so it is no
   * longer than the pool, and empty for an empty pool.
   */
  lemma RankedSortedPermutation(pool: seq<Candidate>, latitude: real, longitude: real, radius: real, distance: DistanceFn)
    requires AllLocated(pool)
    ensures var stamped := StampAll(pool, latitude, longitude, distance);
            var r := Ranked(pool, latitude, longitude, radius, distance);
            && SortedByDistance(r)
            && (forall c :: multiset(r)[c] == if DistanceKey(c) <= radius then multiset(stamped)[c] else 0)
            && |r| <= |pool|
            && (pool == [] ==> r == [])
  {
    var stamped := StampAll(pool, latitude, longitude, distance);
    var w := WithinRadius(stamped, radius);
    WithinRadiusCounts(stamped, radius);
    SortSortedPermutation(w);
  }

  /** Every ranked ambulance carries a distance, and that distance is at most the radius. */
  lemma RankedWithinRadius(pool: seq<Candidate>, latitude: real, longitude: real, radius: real, distance: DistanceFn)
    requires AllLocated(pool)
    ensures var r := Ranked(pool, latitude, longitude, radius, distance);
            forall i :: 0 <= i < |r| ==> r[i].distance.Some? && r[i].distance.value <= radius
  {
    var stamped := StampAll(pool, latitude, longitude, distance);
    var r := Ranked(pool, latitude, longitude, radius, distance);
    RankedSortedPermutation(pool, latitude, longitude, radius, distance);
    forall i | 0 <= i < |r|
      ensures r[i].distance.Some? && r[i].distance.value <= radius
    {
      assert multiset(r)[r[i]] > 0;
      assert r[i] in multiset(stamped);
      var j :| 0 <= j < |stamped| && stamped[j] == r[i];
    }
  }

  /** Ambulances at the same distance keep the order in which the store listed them. */
  lemma RankedStable(pool: seq<Candidate>, latitude: real, longitude: real, radius: real, distance: DistanceFn, k: real)
    requires AllLocated(pool) && k <= radius
    ensures WithDistance(Ranked(pool, latitude, longitude, radius, distance), k) ==
            WithDistance(StampAll(pool, latitude, longitude, distance), k)
  {
    var stamped := StampAll(pool, latitude, longitude, distance);
    SortStable(WithinRadius(stamped, radius), k);
    WithinRadiusWithDistance(stamped, radius, k);
  }

  // ---------------------------------------------------------------------------
  // The imperative ranking
  // ---------------------------------------------------------------------------

  /** Moves a[i] back past every element of the sorted prefix a[..i] that is farther than it. */
  method InsertInPlace(a: array<Candidate>, i: nat)
    requires i < a.Length
    modifies a
    ensures a[..i + 1] == InsertByDistance(old(a[..i]), old(a[i]))
    ensures a[i + 1..] == old(a[i + 1..])
  {
    ghost var sorted := a[..i];
    var x := a[i];
    var j := i;
    while j > 0 && DistanceKey(a[j - 1]) > DistanceKey(x)
      invariant 0 <= j <= i
      invariant a[j] == x
      invariant forall k :: 0 <= k < j ==> a[k] == sorted[k]
      invariant forall k :: j < k <= i ==> a[k] == sorted[k - 1]
      invariant forall k :: j <= k < i ==> DistanceKey(sorted[k]) > DistanceKey(x)
      invariant a[i + 1..] == old(a[i + 1..])
    {
      a[j - 1], a[j] := a[j], a[j - 1];
      j := j - 1;
    }
    InsertByDistanceAt(sorted, x, j);
    assert a[..i + 1] == sorted[..j] + [x] + sorted[j..];
  }

  /** Array.prototype.sort with comparator `a.distance - b.distance`: a stable in-place sort. */
  method SortByDistanceInPlace(a: array<Candidate>)
    modifies a
    ensures a[..] == SortByDistance(old(a[..]))
  {
    ghost var input := a[..];
    var i := 0;
    while i < a.Length
      invariant 0 <= i <= a.Length
      invariant a[..i] == SortByDistance(input[..i])
      invariant a[i..] == input[i..]
    {
      assert a[i] == input[i];
      InsertInPlace(a, i);
      assert input[..i + 1][..i] == input[..i];
      assert a[..i + 1] == SortByDistance(input[..i + 1]);
      i := i + 1;
    }
    assert a[..] == a[..a.Length];
    assert input == input[..a.Length];
  }

  /** `.sort(...)` on the new array `.filter(...)` returned: the stable order of the filtered candidates. */
  method SortFiltered(nearby: seq<Candidate>) returns (ranked: seq<Candidate>)
    ensures ranked == SortByDistance(nearby)
  {
    var a := new Candidate[|nearby|](k requires 0 <= k < |nearby| => nearby[k]);
    assert a[..] == nearby;
    SortByDistanceInPlace(a);
    ranked := a[..];
  }

  /**
   * The body of getNearbyAmbulances after the query: stamp every candidate in
   * place, keep those within the radius, sort them. A candidate without a
   * location throws, after the candidates before it were stamped.
   */
  method RankInPlace(ambulances: array<Candidate>, latitude: real, longitude: real, radius: real, distance: DistanceFn)
    returns (result: Result<seq<Candidate>, RankError>)
    modifies ambulances
    ensures AllLocated(old(ambulances[..])) ==>
              && ambulances[..] == StampAll(old(ambulances[..]), latitude, longitude, distance)
              && result == Success(Ranked(old(ambulances[..]), latitude, longitude, radius, distance))
    ensures !AllLocated(old(ambulances[..])) ==>
              var pool := old(ambulances[..]);
              var k := FirstUnlocated(pool);
              && ambulances[..] == StampAll(pool[..k], latitude, longitude, distance) + pool[k..]
              && result == Failure(MissingLocation(pool[k].id))
  {
    ghost var pool := ambulances[..];
    ghost var stamped: seq<Candidate> := [];
    var nearby: seq<Candidate> := [];
    var i := 0;
    while i < ambulances.Length
      invariant 0 <= i <= ambulances.Length
      invariant AllLocated(pool[..i]) && stamped == StampAll(pool[..i], latitude, longitude, distance)
      invariant forall k :: 0 <= k < i ==> ambulances[k] == stamped[k]
      invariant forall k :: i <= k < ambulances.Length ==> ambulances[k] == pool[k]
      invariant nearby == WithinRadius(stamped, radius)
    {
      var c := ambulances[i];
      if c.data.location.None? {
        FirstUnlocatedAt(pool, i);
        assert ambulances[..] == stamped + pool[i..];
        return Failure(MissingLocation(c.id));
      }
      var d := distance(latitude, longitude, c.data.location.value.latitude, c.data.location.value.longitude);
      ambulances[i] := c.(distance := Some(d));
      StampStep(pool, i, latitude, longitude, distance);
      assert (stamped + [ambulances[i]])[..i] == stamped;
      stamped := stamped + [ambulances[i]];
      if d <= radius {
        nearby := nearby + [ambulances[i]];
      }
      i := i + 1;
    }
    assert pool[..i] == pool;
    assert ambulances[..] == stamped;
    var ranked := SortFiltered(nearby);
    result := Success(ranked);
  }

  /**
   * getNearbyAmbulances(latitude, longitude, radius = 10) over the store's
   * listing of the ambulances collection, most recently updated first.
   */
  method GetNearbyAmbulances(listing: seq<Doc<Ambulance>>, distance: DistanceFn,
                             latitude: real, longitude: real, radius: real := DefaultRadius)
    returns (result: Result<seq<Candidate>, RankError>)
    ensures var pool := CandidatePool(listing);
            result == if AllLocated(pool) then Success(Ranked(pool, latitude, longitude, radius, distance))
                      else Failure(MissingLocation(pool[FirstUnlocated(pool)].id))
  {
    var pool := CandidatePool(listing);
    var ambulances := new Candidate[|pool|](i requires 0 <= i < |pool| => pool[i]);
    assert ambulances[..] == pool;
    result := RankInPlace(ambulances, latitude, longitude, radius, distance);
  }
}

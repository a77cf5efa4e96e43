/**
 * The map page (`pages/map/map.js`): which nearby users become markers
 * (nearest first, at most sixty, grouped on a grid when more than forty are
 * shown), what a tap on a marker does, when the location is fetched again
 * and which broadcast texts are sent.
 *
 * Coordinates extracted from a user's location and the distance from the
 * map centre are inputs of the marker pipeline (`Candidate`); the page's
 * `data` is the state of a `MapPage` object.
 */
module MapPage {
  import opened Wrappers
  import opened Text
  import opened Sorting
  import ChatPage
  import LocationStore

  /** At most this many users are shown, the nearest first. */
  const MAX_MARKERS: nat := 60

  /** Grid clustering starts above this many shown users. */
  const CLUSTER_ABOVE: nat := 40

  /** The first id a cluster marker gets. */
  const CLUSTER_ID_BASE: nat := 10000

  /** The grid cell size in degrees. */
  const CELL_SIZE: real := 0.01

  /** The largest zoom level a tap on a cluster reaches. */
  const MAX_SCALE: int := 20

  /** A location younger than this (in milliseconds) is not fetched again. */
  const LOCATION_CACHE_TIME: int := 30000

  /** `LIMITS.BROADCAST_MAX_LENGTH`. */
  const BROADCAST_MAX_LENGTH: nat := 200

  datatype Coords = Coords(latitude: real, longitude: real)

  /** The fields of a nearby user that the markers show. */
  datatype NearbyUser = NearbyUser(docId: Option<string>, id: Option<string>, nickname: Option<string>, avatarUrl: Option<string>)

  /** A user with its coordinates (if its location has any) and its distance from the map centre. */
  datatype Candidate = Candidate(user: NearbyUser, coords: Option<Coords>, dist: real)

  /** A user that has coordinates: `{ user, coords, dist }`. */
  datatype Placed = Placed(user: NearbyUser, coords: Coords, dist: real)

  datatype Marker =
    | UserMarker(id: nat, userId: Option<string>, position: Coords, iconPath: string, caption: string)
    | ClusterMarker(id: nat, count: nat, position: Coords)

  /** `x` in a boolean position: absent or empty is falsy. */
  predicate Truthy(o: Option<string>) {
    o.Some? && o.value != ""
  }

  /** `a || b` on two string fields. */
  function Or(a: Option<string>, b: Option<string>): (r: Option<string>)
    ensures Truthy(a) ==> r == a
    ensures !Truthy(a) ==> r == b
  {
    if Truthy(a) then a else b
  }

  /** `user.nickname || '匿名用户'`. */
  function Label(u: NearbyUser): string {
    if Truthy(u.nickname) then u.nickname.value else "匿名用户"
  }

  // ---------------------------------------------------------------------
  // Filter, sort, limit
  // ---------------------------------------------------------------------

  /** `map(...)` then `filter(Boolean)`: users without coordinates are dropped, the rest keep their order. */
  function Located(cs: seq<Candidate>): (r: seq<Placed>)
    ensures |r| <= |cs|
    ensures forall c :: c in cs && c.coords.Some? ==> Placed(c.user, c.coords.value, c.dist) in r
    ensures forall p :: p in r ==> Candidate(p.user, Some(p.coords), p.dist) in cs
  {
    if cs == [] then []
    else
      var front := Located(cs[..|cs| - 1]);
      var c := cs[|cs| - 1];
      assert cs == cs[..|cs| - 1] + [c];
      if c.coords.Some? then front + [Placed(c.user, c.coords.value, c.dist)] else front
  }

  function DistOf(p: Placed): real {
    p.dist
  }

  /** `sort` by ascending distance, then `slice(0, MAX_MARKERS)`. */
  function Nearest(cs: seq<Candidate>): (r: seq<Placed>)
    ensures |r| == if |Located(cs)| <= MAX_MARKERS then |Located(cs)| else MAX_MARKERS
    ensures SortedBy(r, DistOf)
    ensures forall p :: p in r ==> p in Located(cs)
  {
    var sorted := SortBy(Located(cs), DistOf);
    var r := Take(sorted, MAX_MARKERS);
    forall p | p in r
      ensures p in Located(cs)
    {
      SortByElements(Located(cs), DistOf, p);
    }
    r
  }

  /** No user left out is nearer than a user shown. */
  lemma NearestAreClosest(cs: seq<Candidate>, kept: Placed, dropped: Placed)
    requires kept in Nearest(cs)
    requires dropped in Located(cs) && dropped !in Nearest(cs)
    ensures kept.dist <= dropped.dist
  {
    var sorted := SortBy(Located(cs), DistOf);
    var r := Nearest(cs);
    assert r == sorted[..|r|];
    SortByElements(Located(cs), DistOf, dropped);
    var j :| 0 <= j < |sorted| && sorted[j] == dropped;
    var i :| 0 <= i < |r| && r[i] == kept;
    assert forall t :: 0 <= t < |r| ==> r[t] == sorted[t];
    assert sorted[i] == kept;
    assert DistOf(sorted[i]) <= DistOf(sorted[j]);
  }

  // ---------------------------------------------------------------------
  // The distance call as written
  // ---------------------------------------------------------------------

  /**
   * The sort key as written. `calculateDistance(lat1, lon1, lat2, lon2)` is
   * called with two objects, so `lat2` and `lon2` are undefined and the result
   * is NaN for every user; then `a.dist - b.dist` is NaN for every pair, and
   * `Array.prototype.sort` takes a NaN comparison as "equal".
   */
  function NaNKey(p: Placed): real {
    0.0
  }

  /** The nearest-first step as written: sort on NaN distances, then `slice(0, MAX_MARKERS)`. */
  function NearestAsWritten(cs: seq<Candidate>): seq<Placed> {
    Take(SortBy(Located(cs), NaNKey), MAX_MARKERS)
  }

  /** As written, the users shown are the first sixty located ones in list order, whatever their distance. */
  lemma NearestAsWrittenIsListOrder(cs: seq<Candidate>)
    ensures NearestAsWritten(cs) == Take(Located(cs), MAX_MARKERS)
  {
    SortByEqualKeys(Located(cs), NaNKey, 0.0);
  }

  /** Two users, the farther one listed first: as written it stays first, the nearest-first order puts it second. */
  lemma FartherUserStaysFirst()
    ensures var far := Candidate(NearbyUser(Some("far"), None, None, None), Some(Coords(0.0, 0.0)), 500.0);
            var near := Candidate(NearbyUser(Some("near"), None, None, None), Some(Coords(0.0, 0.0)), 5.0);
            NearestAsWritten([far, near])[0].dist == 500.0 && Nearest([far, near])[0].dist == 5.0
  {
    var far := Candidate(NearbyUser(Some("far"), None, None, None), Some(Coords(0.0, 0.0)), 500.0);
    var near := Candidate(NearbyUser(Some("near"), None, None, None), Some(Coords(0.0, 0.0)), 5.0);
    var pf, pn := Placed(far.user, Coords(0.0, 0.0), 500.0), Placed(near.user, Coords(0.0, 0.0), 5.0);
    assert [far, near][..1] == [far];
    assert [far][..0] == [];
    assert Located([far, near]) == [pf, pn];
    NearestAsWrittenIsListOrder([far, near]);
    assert [pf, pn][1..] == [pn];
    assert SortBy([pn], DistOf) == [pn];
    assert SortBy([pf, pn], DistOf) == Insert(pf, [pn], DistOf);
    assert Insert(pf, [pn], DistOf) == [pn] + Insert(pf, [], DistOf);
  }

  // ---------------------------------------------------------------------
  // The grid
  // ---------------------------------------------------------------------

  type CellKey = (int, int)

  /** `${Math.floor(latitude / cellSize)}_${Math.floor(longitude / cellSize)}`. */
  function CellOf(p: Placed): CellKey {
    ((p.coords.latitude / CELL_SIZE).Floor, (p.coords.longitude / CELL_SIZE).Floor)
  }

  /** The grid `Map`: each cell's users in input order. */
  function Grid(items: seq<Placed>): (g: map<CellKey, seq<Placed>>)
    ensures forall k :: k in g ==> g[k] != []
  {
    if items == [] then map[]
    else
      var g := Grid(items[..|items| - 1]);
      var p := items[|items| - 1];
      var k := CellOf(p);
      g[k := (if k in g then g[k] else []) + [p]]
  }

  predicate Distinct<T(==)>(s: seq<T>) {
    forall i, j :: 0 <= i < j < |s| ==> s[i] != s[j]
  }

  /** The grid's keys in first-appearance order, the order `Map.forEach` visits them. */
  function CellKeys(items: seq<Placed>): (ks: seq<CellKey>)
    ensures Distinct(ks)
    ensures forall k :: k in ks <==> k in Grid(items)
  {
    if items == [] then []
    else
      var front := items[..|items| - 1];
      var ks := CellKeys(front);
      var k := CellOf(items[|items| - 1]);
      if k in Grid(front) then ks else ks + [k]
  }

  /** Every key listed has a non-empty cell. */
  predicate Covers(keys: seq<CellKey>, grid: map<CellKey, seq<Placed>>) {
    forall k :: k in keys ==> k in grid && grid[k] != []
  }

  /** The total number of users in the listed cells. */
  function SumSizes(keys: seq<CellKey>, grid: map<CellKey, seq<Placed>>): nat
    requires Covers(keys, grid)
  {
    if keys == [] then 0 else SumSizes(keys[..|keys| - 1], grid) + |grid[keys[|keys| - 1]]|
  }

  /** Changing a cell not listed changes no sum. */
  lemma {:induction false} SumSizesOther(keys: seq<CellKey>, grid: map<CellKey, seq<Placed>>, k: CellKey, v: seq<Placed>)
    requires Covers(keys, grid) && k !in keys
    ensures Covers(keys, grid[k := v]) && SumSizes(keys, grid[k := v]) == SumSizes(keys, grid)
  {
    if keys != [] {
      SumSizesOther(keys[..|keys| - 1], grid, k, v);
    }
  }

  /** Changing a cell listed once changes the sum by the change of its size. */
  lemma {:induction false} SumSizesUpdate(keys: seq<CellKey>, grid: map<CellKey, seq<Placed>>, k: CellKey, v: seq<Placed>)
    requires Covers(keys, grid) && Distinct(keys) && k in keys && v != []
    ensures Covers(keys, grid[k := v]) && SumSizes(keys, grid[k := v]) == SumSizes(keys, grid) - |grid[k]| + |v|
  {
    var front := keys[..|keys| - 1];
    var last := keys[|keys| - 1];
    assert keys == front + [last];
    assert Distinct(front) by {
      forall a, b | 0 <= a < b < |front|
        ensures front[a] != front[b]
      {
        assert front[a] == keys[a] && front[b] == keys[b];
      }
    }
    if last == k {
      assert k !in front by {
        forall i | 0 <= i < |front|
          ensures front[i] != k
        {
          assert keys[i] == front[i];
        }
      }
      SumSizesOther(front, grid, k, v);
    } else {
      assert k in front by {
        var i :| 0 <= i < |keys| && keys[i] == k;
        assert front[i] == k;
      }
      SumSizesUpdate(front, grid, k, v);
    }
  }

  /** Every shown user falls in exactly one cell: the cells' sizes sum to the number of users. */
  lemma {:induction false} GridSizesSum(items: seq<Placed>)
    ensures Covers(CellKeys(items), Grid(items))
    ensures SumSizes(CellKeys(items), Grid(items)) == |items|
  {
    if items != [] {
      var front := items[..|items| - 1];
      var p := items[|items| - 1];
      var k := CellOf(p);
      var g := Grid(front);
      var ks := CellKeys(front);
      GridSizesSum(front);
      if k in g {
        SumSizesUpdate(ks, g, k, g[k] + [p]);
      } else {
        var g2 := g[k := [p]];
        assert [] + [p] == [p];
        SumSizesOther(ks, g, k, [p]);
        assert Grid(items) == g2 && CellKeys(items) == ks + [k];
        assert (ks + [k])[..|ks|] == ks;
        assert SumSizes(ks + [k], g2) == SumSizes(ks, g2) + |g2[k]|;
      }
    }
  }

  // ---------------------------------------------------------------------
  // Markers
  // ---------------------------------------------------------------------

  function SumLatitude(list: seq<Placed>): real {
    if list == [] then 0.0 else SumLatitude(list[..|list| - 1]) + list[|list| - 1].coords.latitude
  }

  function SumLongitude(list: seq<Placed>): real {
    if list == [] then 0.0 else SumLongitude(list[..|list| - 1]) + list[|list| - 1].coords.longitude
  }

  /** The cluster's position: the mean of its users' coordinates. */
  function Average(list: seq<Placed>): Coords
    requires list != []
  {
    Coords(SumLatitude(list) / |list| as real, SumLongitude(list) / |list| as real)
  }

  /** The marker of a single user at position `index` in the marker list. */
  function SingleMarker(index: nat, p: Placed, userId: Option<string>): Marker {
    UserMarker(index + 1, userId, p.coords, ChatPage.GenerateAvatarPath(p.user.avatarUrl), Label(p.user))
  }

  /**
   * Marker ids as the clustering hands them out: a user marker's id is its
   * position plus one, cluster ids lie in [10000, next) and increase.
   */
  predicate IdsAsHandedOut(ms: seq<Marker>, next: nat) {
    && CLUSTER_ID_BASE <= next
    && (forall i :: 0 <= i < |ms| && ms[i].UserMarker? ==> ms[i].id == i + 1)
    && (forall i :: 0 <= i < |ms| && ms[i].ClusterMarker? ==> CLUSTER_ID_BASE <= ms[i].id < next)
    && (forall i, j :: 0 <= i < j < |ms| && ms[i].ClusterMarker? && ms[j].ClusterMarker? ==> ms[i].id < ms[j].id)
  }

  /** What a marker stands for: one user, or `count` users. */
  function TotalCount(ms: seq<Marker>): nat {
    if ms == [] then 0
    else TotalCount(ms[..|ms| - 1]) + match ms[|ms| - 1] { case UserMarker(_, _, _, _, _) => 1 case ClusterMarker(_, n, _) => n }
  }

  /** One cell's marker: a lone user keeps a user marker, more become a cluster with the next cluster id. */
  function EmitCell(ms: seq<Marker>, next: nat, list: seq<Placed>): (r: (seq<Marker>, nat))
    requires list != []
    requires IdsAsHandedOut(ms, next)
    ensures IdsAsHandedOut(r.0, r.1)
    ensures |r.0| == |ms| + 1 && r.0[..|ms|] == ms
    ensures TotalCount(r.0) == TotalCount(ms) + |list|
  {
    var m := if |list| == 1 then SingleMarker(|ms|, list[0], Or(list[0].user.docId, list[0].user.id))
             else ClusterMarker(next, |list|, Average(list));
    var r := (ms + [m], if |list| == 1 then next else next + 1);
    assert r.0[..|ms|] == ms;
    r
  }

  /** The cluster path: `grid.forEach` over the keys in order. */
  function ClusterMarkers(keys: seq<CellKey>, grid: map<CellKey, seq<Placed>>): (r: (seq<Marker>, nat))
    requires Covers(keys, grid)
    ensures |r.0| == |keys|
    ensures IdsAsHandedOut(r.0, r.1)
    ensures TotalCount(r.0) == SumSizes(keys, grid)
  {
    if keys == [] then ([], CLUSTER_ID_BASE)
    else
      var acc := ClusterMarkers(keys[..|keys| - 1], grid);
      EmitCell(acc.0, acc.1, grid[keys[|keys| - 1]])
  }

  /** The plain path: `limited.map((item, index) => ...)`. */
  function PlainMarkers(limited: seq<Placed>): (r: seq<Marker>)
    ensures |r| == |limited|
    ensures forall i :: 0 <= i < |r| ==>
              && r[i].UserMarker? && r[i].id == i + 1 && r[i].position == limited[i].coords
              && r[i].userId == Or(Or(limited[i].user.docId, limited[i].user.id), Some(NatToString(i + 1)))
              && Truthy(r[i].userId)
  {
    seq(|limited|, i requires 0 <= i < |limited| =>
      SingleMarker(i, limited[i], Or(Or(limited[i].user.docId, limited[i].user.id), Some(NatToString(i + 1)))))
  }

  /** The markers for the users kept: clustered above forty, plain otherwise. */
  function MarkersFor(limited: seq<Placed>): seq<Marker> {
    if |limited| > CLUSTER_ABOVE then ClusterMarkers(CellKeys(limited), Grid(limited)).0
    else PlainMarkers(limited)
  }

  /** The markers for the candidates: `generateMarkersFromUsers` with coordinates and distances supplied. */
  function Markers(cs: seq<Candidate>): seq<Marker> {
    MarkersFor(Nearest(cs))
  }

  predicate DistinctIds(ms: seq<Marker>) {
    forall i, j :: 0 <= i < j < |ms| ==> ms[i].id != ms[j].id
  }

  /** Every user kept is counted exactly once, and no more than sixty are kept. */
  lemma MarkersCountUsers(cs: seq<Candidate>)
    ensures TotalCount(Markers(cs)) == |Nearest(cs)| <= MAX_MARKERS
    ensures |Markers(cs)| <= MAX_MARKERS
  {
    var limited := Nearest(cs);
    if |limited| > CLUSTER_ABOVE {
      GridSizesSum(limited);
      assert |CellKeys(limited)| <= SumSizes(CellKeys(limited), Grid(limited)) by {
        SumAtLeastCount(CellKeys(limited), Grid(limited));
      }
    } else {
      PlainCount(PlainMarkers(limited));
    }
  }

  lemma {:induction false} SumAtLeastCount(keys: seq<CellKey>, grid: map<CellKey, seq<Placed>>)
    requires Covers(keys, grid)
    ensures |keys| <= SumSizes(keys, grid)
  {
    if keys != [] {
      SumAtLeastCount(keys[..|keys| - 1], grid);
    }
  }

  /** A list of user markers only counts one per marker. */
  lemma {:induction false} PlainCount(ms: seq<Marker>)
    requires forall i :: 0 <= i < |ms| ==> ms[i].UserMarker?
    ensures TotalCount(ms) == |ms|
  {
    if ms != [] {
      PlainCount(ms[..|ms| - 1]);
    }
  }

  /** No two markers share an id, so a tap finds the marker tapped. */
  lemma MarkerIdsDistinct(cs: seq<Candidate>)
    ensures DistinctIds(Markers(cs))
  {
    var limited := Nearest(cs);
    MarkersCountUsers(cs);
    if |limited| > CLUSTER_ABOVE {
      var r := ClusterMarkers(CellKeys(limited), Grid(limited));
      HandedOutDistinct(r.0, r.1);
    }
  }

  lemma HandedOutDistinct(ms: seq<Marker>, next: nat)
    requires IdsAsHandedOut(ms, next) && |ms| < CLUSTER_ID_BASE
    ensures DistinctIds(ms)
  {
    forall i, j | 0 <= i < j < |ms|
      ensures ms[i].id != ms[j].id
    {
      if ms[i].UserMarker? && ms[j].ClusterMarker? {
        assert ms[i].id == i + 1 < CLUSTER_ID_BASE <= ms[j].id;
      } else if ms[i].ClusterMarker? && ms[j].UserMarker? {
        assert ms[j].id == j + 1 < CLUSTER_ID_BASE <= ms[i].id;
      }
    }
  }

  /** Cluster markers appear only when more than forty users are kept. */
  lemma ClustersOnlyAboveForty(cs: seq<Candidate>, i: nat)
    requires i < |Markers(cs)| && Markers(cs)[i].ClusterMarker?
    ensures |Nearest(cs)| > CLUSTER_ABOVE
    ensures 2 <= Markers(cs)[i].count
  {
    var limited := Nearest(cs);
    if |limited| > CLUSTER_ABOVE {
      ClusterCountsAtLeastTwo(CellKeys(limited), Grid(limited), i);
    }
  }

  lemma {:induction false} ClusterCountsAtLeastTwo(keys: seq<CellKey>, grid: map<CellKey, seq<Placed>>, i: nat)
    requires Covers(keys, grid)
    requires i < |ClusterMarkers(keys, grid).0| && ClusterMarkers(keys, grid).0[i].ClusterMarker?
    ensures ClusterMarkers(keys, grid).0[i].count >= 2
  {
    var front := keys[..|keys| - 1];
    var acc := ClusterMarkers(front, grid);
    if i < |front| {
      assert ClusterMarkers(keys, grid).0[i] == acc.0[i];
      ClusterCountsAtLeastTwo(front, grid, i);
    }
  }

  /**
   * `generateMarkersFromUsers` with coordinates and distances supplied: the
   * grid and the cluster markers are built by loops as in the page.
   */
  method GenerateMarkers(cs: seq<Candidate>) returns (markers: seq<Marker>)
    ensures markers == Markers(cs)
  {
    var limited := Nearest(cs);
    if |limited| <= CLUSTER_ABOVE {
      return PlainMarkers(limited);
    }
    var keys, grid := BuildGrid(limited);
    GridSizesSum(limited);
    markers := EmitMarkers(keys, grid);
  }

  /** The `forEach` that fills the grid `Map`, with its keys in insertion order. */
  method BuildGrid(items: seq<Placed>) returns (keys: seq<CellKey>, grid: map<CellKey, seq<Placed>>)
    ensures keys == CellKeys(items) && grid == Grid(items)
  {
    keys, grid := [], map[];
    for i := 0 to |items|
      invariant keys == CellKeys(items[..i]) && grid == Grid(items[..i])
    {
      assert items[..i + 1][..i] == items[..i];
      var k := CellOf(items[i]);
      if k !in grid {
        keys := keys + [k];
        grid := grid[k := []];
      }
      grid := grid[k := grid[k] + [items[i]]];
    }
    assert items[..|items|] == items;
  }

  /** `grid.forEach(list => markers.push(...))` with the running `clusterId`. */
  method EmitMarkers(keys: seq<CellKey>, grid: map<CellKey, seq<Placed>>) returns (markers: seq<Marker>)
    requires Covers(keys, grid)
    ensures markers == ClusterMarkers(keys, grid).0
  {
    markers := [];
    var clusterId := CLUSTER_ID_BASE;
    for j := 0 to |keys|
      invariant Covers(keys[..j], grid)
      invariant (markers, clusterId) == ClusterMarkers(keys[..j], grid)
    {
      assert keys[..j + 1][..j] == keys[..j];
      var list := grid[keys[j]];
      if |list| == 1 {
        markers := markers + [SingleMarker(|markers|, list[0], Or(list[0].user.docId, list[0].user.id))];
      } else {
        markers := markers + [ClusterMarker(clusterId, |list|, Average(list))];
        clusterId := clusterId + 1;
      }
    }
    assert keys[..|keys|] == keys;
  }

  /**
   * `generateMarkersFromUsers` as written: it calls `this.extractCoordinates`,
   * which the page does not define, for every user, so any non-empty list throws.
   */
  function MarkersAsWritten(users: seq<NearbyUser>): (r: Result<seq<Marker>>)
    ensures users == [] ==> r == Ok([])
    ensures users != [] ==> r.Err?
  {
    if users == [] then Ok([]) else Err("this.extractCoordinates is not a function")
  }

  /** One nearby user with coordinates: the page throws, the corrected pipeline shows one marker for them. */
  lemma OneUserShowsNoMarker(u: NearbyUser, at: Coords, dist: real)
    ensures MarkersAsWritten([u]).Err?
    ensures var ms := Markers([Candidate(u, Some(at), dist)]);
            |ms| == 1 && ms[0].UserMarker? && ms[0].id == 1 && ms[0].position == at
  {
    var cs := [Candidate(u, Some(at), dist)];
    assert Placed(u, at, dist) in Located(cs);
    assert |Nearest(cs)| == 1;
    assert Nearest(cs)[0] in Located(cs);
  }

  // ---------------------------------------------------------------------
  // Tapping a marker
  // ---------------------------------------------------------------------

  /** `markers.find(item => item.id === markerId)`. */
  function FindMarker(ms: seq<Marker>, id: int): (r: Option<Marker>)
    ensures r.Some? ==> r.value in ms && r.value.id == id
    ensures r.None? ==> forall i :: 0 <= i < |ms| ==> ms[i].id != id
  {
    if ms == [] then None
    else if ms[0].id == id then Some(ms[0])
    else FindMarker(ms[1..], id)
  }

  /** With distinct ids, tapping a marker's id finds that very marker. */
  lemma {:induction false} FindMarkerById(ms: seq<Marker>, i: nat)
    requires DistinctIds(ms) && i < |ms|
    ensures FindMarker(ms, ms[i].id) == Some(ms[i])
  {
    if i > 0 {
      assert ms[0].id != ms[i].id;
      assert ms[1..][i - 1] == ms[i];
      assert DistinctIds(ms[1..]) by {
        forall a, b | 0 <= a < b < |ms| - 1
          ensures ms[1..][a].id != ms[1..][b].id
        {
          assert ms[1..][a] == ms[a + 1] && ms[1..][b] == ms[b + 1];
        }
      }
      FindMarkerById(ms[1..], i - 1);
    }
  }

  /** The zoom level after tapping a cluster: two levels closer, never beyond twenty. */
  function ZoomIn(scale: int): (r: int)
    ensures r <= MAX_SCALE || r == scale + 2 <= MAX_SCALE
    ensures scale <= MAX_SCALE - 2 ==> r == scale + 2
    ensures scale >= MAX_SCALE - 2 ==> r == MAX_SCALE
  {
    if scale + 2 < MAX_SCALE then scale + 2 else MAX_SCALE
  }

  /** From any level at most twenty, any number of cluster taps stays at most twenty. */
  lemma {:induction false} ZoomInRepeated(scale: int, taps: nat)
    requires scale <= MAX_SCALE
    ensures Zoomed(scale, taps) <= MAX_SCALE
    ensures taps > 0 ==> Zoomed(scale, taps) >= scale
  {
    if taps > 0 {
      ZoomInRepeated(scale, taps - 1);
    }
  }

  function Zoomed(scale: int, taps: nat): int {
    if taps == 0 then scale else ZoomIn(Zoomed(scale, taps - 1))
  }

  // ---------------------------------------------------------------------
  // Location staleness and broadcast checks
  // ---------------------------------------------------------------------

  /** `!currentLocation || !lastLocationTime || (now - lastLocationTime) > 30000`; a zero time is falsy. */
  predicate NeedsLocationRefresh(loc: LocationStore.LocationFields, now: int) {
    loc.currentLocation.None? || loc.lastUpdateTime.None? || loc.lastUpdateTime == Some(0)
    || now - loc.lastUpdateTime.value > LOCATION_CACHE_TIME
  }

  /** A fix the store recorded at a non-zero time `t` is fetched again only once it is over thirty seconds old. */
  lemma FreshFixIsKept(loc: LocationStore.LocationFields, fix: LocationStore.Fix, t: int, now: int)
    requires t != 0
    ensures var after := loc.(currentLocation := Some(fix), lastUpdateTime := Some(t));
            NeedsLocationRefresh(after, now) <==> now - t > LOCATION_CACHE_TIME
  {
  }

  datatype BroadcastVerdict =
    | EmptyContent      // '请输入广播内容'
    | TooLong           // '广播内容不能超过200字'
    | NoLocation        // '获取位置失败'
    | Ready(text: string)

  /** The checks `sendBroadcast` makes, in order, before it sends. */
  function CheckBroadcast(content: string, hasLocation: bool): (v: BroadcastVerdict)
    ensures v == EmptyContent <==> AllWhite(content)
    ensures v.Ready? ==> v.text == Trim(content) && 1 <= |v.text| <= BROADCAST_MAX_LENGTH && hasLocation
    ensures v == NoLocation ==> !hasLocation
  {
    TrimEmptyIff(content);
    var text := Trim(content);
    if text == "" then EmptyContent
    else if |text| > BROADCAST_MAX_LENGTH then TooLong
    else if !hasLocation then NoLocation
    else Ready(text)
  }

  /** A text that was accepted is accepted again unchanged. */
  lemma AcceptedTextStable(content: string)
    requires CheckBroadcast(content, true).Ready?
    ensures CheckBroadcast(CheckBroadcast(content, true).text, true) == CheckBroadcast(content, true)
  {
    var t := Trim(content);
    TrimUnpadded(t);
  }

  // ---------------------------------------------------------------------
  // The page
  // ---------------------------------------------------------------------

  class MapPageState {
    var latitude: real
    var longitude: real
    var scale: int
    var markers: seq<Marker>
    var showBroadcastModal: bool
    var broadcastContent: string

    /** The initial `data`. */
    constructor ()
      ensures latitude == 23.099994 && longitude == 113.324520 && scale == 16
      ensures markers == [] && !showBroadcastModal && broadcastContent == ""
    {
      latitude, longitude, scale := 23.099994, 113.324520, 16;
      markers, showBroadcastModal, broadcastContent := [], false, "";
    }

    /** `setData({ markers })` with the markers for the candidates. */
    method UpdateMarkers(cs: seq<Candidate>)
      modifies this
      ensures markers == Markers(cs)
      ensures scale == old(scale) && latitude == old(latitude) && longitude == old(longitude)
      ensures showBroadcastModal == old(showBroadcastModal) && broadcastContent == old(broadcastContent)
    {
      markers := GenerateMarkers(cs);
    }

    /**
     * `onMarkerTap`: an unknown id does nothing; a cluster centres the map on
     * itself and zooms in; a user marker opens the chat with that user.
     */
    method OnMarkerTap(markerId: int) returns (navigateTo: Option<string>)
      modifies this
      ensures markers == old(markers) && showBroadcastModal == old(showBroadcastModal)
      ensures broadcastContent == old(broadcastContent)
      ensures FindMarker(old(markers), markerId).None? ==>
                navigateTo.None? && latitude == old(latitude) && longitude == old(longitude) && scale == old(scale)
      ensures FindMarker(old(markers), markerId).Some? && FindMarker(old(markers), markerId).value.ClusterMarker? ==>
                var m := FindMarker(old(markers), markerId).value;
                navigateTo.None? && latitude == m.position.latitude && longitude == m.position.longitude
                && scale == ZoomIn(old(scale))
      ensures FindMarker(old(markers), markerId).Some? && FindMarker(old(markers), markerId).value.UserMarker? ==>
                var m := FindMarker(old(markers), markerId).value;
                navigateTo == Some("/pages/chat/chat?targetUserId=" + m.userId.GetOr("undefined"))
                && latitude == old(latitude) && longitude == old(longitude) && scale == old(scale)
    {
      navigateTo := None;
      var found := FindMarker(markers, markerId);
      if found.None? {
        return;
      }
      var m := found.value;
      if m.ClusterMarker? {
        latitude, longitude := m.position.latitude, m.position.longitude;
        scale := if scale + 2 < MAX_SCALE then scale + 2 else MAX_SCALE;
        return;
      }
      navigateTo := Some("/pages/chat/chat?targetUserId=" + m.userId.GetOr("undefined"));
    }

    /** `showBroadcastModal`. */
    method ShowBroadcastModal()
      modifies this
      ensures showBroadcastModal && broadcastContent == ""
      ensures markers == old(markers) && scale == old(scale)
    {
      showBroadcastModal, broadcastContent := true, "";
    }

    /** `onBroadcastInput`. */
    method OnBroadcastInput(value: string)
      modifies this
      ensures broadcastContent == value && showBroadcastModal == old(showBroadcastModal)
      ensures markers == old(markers) && scale == old(scale)
    {
      broadcastContent := value;
    }

    /**
     * `sendBroadcast`: `hasLocation` says whether the store holds a current
     * location and `sent` whether sending (or the stand-in when no broadcast
     * API is available) succeeded. Only a send that succeeds closes the dialog.
     */
    method SendBroadcast(hasLocation: bool, sent: bool) returns (v: BroadcastVerdict)
      modifies this
      ensures v == CheckBroadcast(old(broadcastContent), hasLocation)
      ensures v.Ready? && sent ==> !showBroadcastModal && broadcastContent == ""
      ensures !(v.Ready? && sent) ==>
                showBroadcastModal == old(showBroadcastModal) && broadcastContent == old(broadcastContent)
      ensures markers == old(markers) && scale == old(scale)
    {
      var content := Trim(broadcastContent);
      TrimEmptyIff(broadcastContent);
      if content == "" {
        return EmptyContent;
      }
      if |content| > BROADCAST_MAX_LENGTH {
        return TooLong;
      }
      if !hasLocation {
        return NoLocation;
      }
      v := Ready(content);
      if sent {
        showBroadcastModal, broadcastContent := false, "";
      }
    }
  }
}

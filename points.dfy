/** MulandDB's constructor (mulandweb/mulanddb.py:24-52): finding the model by name and
    flattening the request's locations into indexed query points. */
module Points {
  import opened Common
  import opened Request
  import opened Tables

  /** A query point: its index, its location's coordinates, its unit's requested type and,
      once zones are resolved, the containing zone. */
  datatype QueryPoint = QueryPoint(id: nat, lng: Num, lat: Num, typesId: Value, zonesId: Option<int>)

  /** A location the constructor can read: a [lng, lat] pair under 'lnglat', a unit list under
      'units', and a 'type' in every unit. Anything else makes the Python code raise. */
  predicate WellFormedLocation(loc: LocationDict) {
    && "lnglat" in loc && loc["lnglat"].LngLat?
    && "units" in loc && loc["units"].Units?
    && forall u :: 0 <= u < |loc["units"].units| ==> "type" in loc["units"].units[u]
  }

  predicate WellFormed(locs: seq<LocationDict>) {
    forall l :: 0 <= l < |locs| ==> WellFormedLocation(locs[l])
  }

  /** The number of units over all locations. */
  function UnitCount(locs: seq<LocationDict>): nat
    requires WellFormed(locs)
  {
    if locs == [] then 0
    else UnitCount(locs[..|locs| - 1]) + |locs[|locs| - 1]["units"].units|
  }

  /** The points of one location, numbered from base, in unit order. */
  function LocationPoints(loc: LocationDict, base: nat): seq<QueryPoint>
    requires WellFormedLocation(loc)
  {
    var units := loc["units"].units;
    seq(|units|, u requires 0 <= u < |units| =>
      QueryPoint(base + u, loc["lnglat"].lng, loc["lnglat"].lat, units[u]["type"], None))
  }

  /** The point list the constructor builds. */
  function Flatten(locs: seq<LocationDict>): seq<QueryPoint>
    requires WellFormed(locs)
  {
    if locs == [] then []
    else Flatten(locs[..|locs| - 1]) + LocationPoints(locs[|locs| - 1], UnitCount(locs[..|locs| - 1]))
  }

  /** Point ids are the points' positions. */
  predicate IdsArePositions(ps: seq<QueryPoint>) {
    forall k :: 0 <= k < |ps| ==> ps[k].id == k
  }

  /** No two points share an id. */
  predicate DistinctIds(ps: seq<QueryPoint>) {
    forall i, j :: 0 <= i < |ps| && 0 <= j < |ps| && ps[i].id == ps[j].id ==> i == j
  }

  /** Flattening yields one point per unit, numbered 0..n-1 in order. */
  lemma {:induction false} FlattenSpec(locs: seq<LocationDict>)
    requires WellFormed(locs)
    ensures |Flatten(locs)| == UnitCount(locs)
    ensures IdsArePositions(Flatten(locs))
  {
    if locs != [] {
      var n := |locs| - 1;
      FlattenSpec(locs[..n]);
    }
  }

  /** The point of unit u of location l sits at the number of units before location l plus
      u, and carries that location's lng and lat, that unit's type, and no zone. */
  lemma {:induction false} FlattenAt(locs: seq<LocationDict>, l: nat, u: nat)
    requires WellFormed(locs) && l < |locs| && u < |locs[l]["units"].units|
    ensures UnitCount(locs[..l]) + u < |Flatten(locs)|
    ensures Flatten(locs)[UnitCount(locs[..l]) + u] ==
      QueryPoint(UnitCount(locs[..l]) + u, locs[l]["lnglat"].lng, locs[l]["lnglat"].lat,
                 locs[l]["units"].units[u]["type"], None)
  {
    var n := |locs| - 1;
    var init := locs[..n];
    FlattenSpec(init);
    if l < n {
      assert locs[..l] == init[..l];
      assert init[l] == locs[l];
      FlattenAt(init, l, u);
      UnitCountPrefix(init, l);
    } else {
      assert locs[..l] == init;
    }
  }

  /** Units before location l never exceed the total. */
  lemma {:induction false} UnitCountPrefix(locs: seq<LocationDict>, l: nat)
    requires WellFormed(locs) && l < |locs|
    ensures UnitCount(locs[..l]) + |locs[l]["units"].units| <= UnitCount(locs)
  {
    var n := |locs| - 1;
    if l < n {
      assert locs[..n][..l] == locs[..l];
      assert locs[..n][l] == locs[l];
      UnitCountPrefix(locs[..n], l);
    } else {
      assert locs[..l] == locs[..n];
    }
  }

  /** The constructor's loop: every unit of every location becomes the next point. It fails
      exactly when some location or unit lacks a field it reads. */
  method FlattenLocations(locations: seq<LocationDict>) returns (r: Result<seq<QueryPoint>>)
    ensures r.Ok? <==> WellFormed(locations)
    ensures r.Ok? ==> r.value == Flatten(locations)
    ensures r.Err? ==> r.error == MalformedLocation
  {
    var points: seq<QueryPoint> := [];
    var i: nat := 0;
    var l := 0;
    while l < |locations|
      invariant 0 <= l <= |locations|
      invariant WellFormed(locations[..l])
      invariant i == UnitCount(locations[..l]) && points == Flatten(locations[..l])
    {
      var loc := locations[l];
      if !("lnglat" in loc && loc["lnglat"].LngLat?) || !("units" in loc && loc["units"].Units?) {
        assert !WellFormedLocation(locations[l]);
        return Err(MalformedLocation);
      }
      var lnglat, units := loc["lnglat"], loc["units"].units;
      ghost var before := points;
      FlattenSpec(locations[..l]);
      var u := 0;
      while u < |units|
        invariant 0 <= u <= |units|
        invariant forall k :: 0 <= k < u ==> "type" in units[k]
        invariant i == |before| + u && |points| == |before| + u && points[..|before|] == before
        invariant forall k :: 0 <= k < u ==>
          points[|before| + k] == QueryPoint(|before| + k, lnglat.lng, lnglat.lat, units[k]["type"], None)
      {
        if "type" !in units[u] {
          assert !WellFormedLocation(locations[l]);
          return Err(MalformedLocation);
        }
        points := points + [QueryPoint(i, lnglat.lng, lnglat.lat, units[u]["type"], None)];
        i := i + 1;
        u := u + 1;
      }
      assert locations[..l + 1][..l] == locations[..l];
      assert locations[..l + 1][l] == loc;
      assert points == before + LocationPoints(loc, UnitCount(locations[..l]));
      l := l + 1;
    }
    assert locations[..l] == locations;
    return Ok(points);
  }

  /** The model a name selects: the first models row with that name. */
  function ModelNamed(models: seq<ModelRow>, name: string): Option<ModelRow> {
    First(models, (r: ModelRow) => r.name == name)
  }

  /** The models row a model id selects (the headers query, LIMIT 1). */
  function ModelWithId(models: seq<ModelRow>, id: int): Option<ModelRow> {
    First(models, (r: ModelRow) => r.id == id)
  }

  /** How the corrected constructor ends: ModelNotFound when no models row has the name, then
      MalformedLocation when the locations cannot be flattened, and otherwise no error. */
  function OpenError(models: seq<ModelRow>, name: string, locs: seq<LocationDict>): (e: Option<Error>)
    ensures e == Some(ModelNotFound) <==> forall k :: 0 <= k < |models| ==> models[k].name != name
    ensures e == Some(MalformedLocation) <==>
              (exists k :: 0 <= k < |models| && models[k].name == name) && !WellFormed(locs)
    ensures e == None ==>
              WellFormed(locs) && ModelNamed(models, name).Some? && ModelWithId(models, ModelNamed(models, name).value.id).Some?
  {
    var found := ModelNamed(models, name);
    if found.None? then Some(ModelNotFound)
    else if !WellFormed(locs) then Some(MalformedLocation)
    else
      assert ModelWithId(models, found.value.id).Some?;
      None
  }

  /** How the constructor as written ends: the test at line 34 asks whether the result object
      is None, which it never is, so a model no row names gets through, the locations are
      flattened, and row[0] then subscripts None. ModelNotFound is never raised. */
  function OpenErrorAsWritten(models: seq<ModelRow>, name: string, locs: seq<LocationDict>): (e: Option<Error>)
    ensures e != Some(ModelNotFound)
    ensures e == Some(NoneNotSubscriptable) <==> WellFormed(locs) && forall k :: 0 <= k < |models| ==> models[k].name != name
    ensures e == Some(MalformedLocation) <==> !WellFormed(locs)
  {
    if !WellFormed(locs) then Some(MalformedLocation)
    else if ModelNamed(models, name).None? then Some(NoneNotSubscriptable)
    else None
  }
}

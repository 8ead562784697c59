/** ModelImporter._get_zone_shapes (mulandweb/mulanddb.py:558-583): the polygons of a
    shapefile keyed by each record's 'ID' attribute, with the rings cut from the record's
    point array at its part offsets. */
module Shapes {
  import opened Common
  import opened Tables
  import opened Joins

  /** A shape record: shape type, part offsets, point array, and attribute values. */
  datatype ShapeRecord = ShapeRecord(shapeType: int, parts: seq<nat>, points: seq<Point2>, record: seq<Value>)

  /** A shapefile: its field descriptors' names (the first is the deletion flag) and records. */
  datatype ShapeFile = ShapeFile(fields: seq<string>, records: seq<ShapeRecord>)

  const PolygonShapeType := 5

  /** zip_longest(parts, parts[1:]): each offset with the next one, None after the last. */
  function ZipLongest(parts: seq<nat>): (r: seq<(nat, Option<nat>)>)
    ensures |r| == |parts|
    ensures forall k :: 0 <= k < |parts| ==>
      r[k] == (parts[k], if k + 1 < |parts| then Some(parts[k + 1]) else None)
  {
    seq(|parts|, k requires 0 <= k < |parts| => (parts[k], if k + 1 < |parts| then Some(parts[k + 1]) else None))
  }

  /** The slice of points each pair of offsets delimits. */
  function Rings(parts: seq<nat>, points: seq<Point2>): seq<Ring> {
    Map(ZipLongest(parts), (b: (nat, Option<nat>)) => Slice(points, b.0, b.1))
  }

  /** The polygon of a record: the first ring is the exterior, the rest are holes. Without
      parts ringidx[0] raises IndexError. */
  function ShapePolygon(parts: seq<nat>, points: seq<Point2>): Result<Polygon> {
    if parts == [] then Err(NoParts)
    else Ok(Polygon(Rings(parts, points)[0], Rings(parts, points)[1..]))
  }

  /** One ring per part: the exterior is points[parts[0]:parts[1]], or points[parts[0]:] for a
      single part, which then has no holes; hole k is points[parts[k+1]:parts[k+2]], the last
      one running to the end of the array. */
  lemma ShapePolygonSpec(parts: seq<nat>, points: seq<Point2>)
    ensures ShapePolygon(parts, points).Err? <==> parts == []
    ensures parts != [] ==>
      var poly := ShapePolygon(parts, points).value;
      && 1 + |poly.interiors| == |parts|
      && poly.exterior == Slice(points, parts[0], if |parts| > 1 then Some(parts[1]) else None)
      && (|parts| == 1 ==> poly.interiors == [])
      && forall k :: 0 <= k < |poly.interiors| ==>
           poly.interiors[k] == Slice(points, parts[k + 1], if k + 2 < |parts| then Some(parts[k + 2]) else None)
  {
  }

  /** The rings laid end to end. */
  function Concat(rings: seq<Ring>): Ring {
    if rings == [] then [] else rings[0] + Concat(rings[1..])
  }

  /** Offsets that start at 0, never decrease and stay within the array. */
  predicate WellFormedParts(parts: seq<nat>, points: seq<Point2>) {
    && |parts| > 0 && parts[0] == 0
    && (forall i, j :: 0 <= i < j < |parts| ==> parts[i] <= parts[j])
    && (forall i :: 0 <= i < |parts| ==> parts[i] <= |points|)
  }

  /** The rings after the first are the rings of the later offsets. */
  lemma RingsTail(parts: seq<nat>, points: seq<Point2>)
    requires |parts| > 1
    ensures Rings(parts, points)[1..] == Rings(parts[1..], points)
  {
    var a, b := Rings(parts, points)[1..], Rings(parts[1..], points);
    assert |a| == |b|;
    forall i | 0 <= i < |a| ensures a[i] == b[i] {
      assert ZipLongest(parts)[i + 1] == ZipLongest(parts[1..])[i];
    }
  }

  lemma {:induction false} RingsFrom(parts: seq<nat>, points: seq<Point2>)
    requires |parts| > 0
    requires forall i, j :: 0 <= i < j < |parts| ==> parts[i] <= parts[j]
    requires forall i :: 0 <= i < |parts| ==> parts[i] <= |points|
    ensures Concat(Rings(parts, points)) == points[parts[0]..]
  {
    var rings := Rings(parts, points);
    assert rings[0] == Slice(points, parts[0], if |parts| > 1 then Some(parts[1]) else None);
    if |parts| == 1 {
      assert rings[0] == points[parts[0]..];
      assert Concat(rings) == rings[0] + Concat(rings[1..]);
    } else {
      RingsFrom(parts[1..], points);
      RingsTail(parts, points);
      assert rings[0] == points[parts[0]..parts[1]];
      assert points[parts[0]..] == points[parts[0]..parts[1]] + points[parts[1]..];
    }
  }

  /** When the offsets start at 0 and are ordered, the rings split the point array exactly:
      laid end to end they give it back. */
  lemma RingsPartition(parts: seq<nat>, points: seq<Point2>)
    requires WellFormedParts(parts, points)
    ensures Concat(Rings(parts, points)) == points
  {
    RingsFrom(parts, points);
  }

  /** dict(zip(fields, record))[key]: the value at the last position below both lengths
      whose field is named key. */
  function FieldValue(names: seq<string>, values: seq<Value>, key: string): (r: Option<Value>)
    ensures r.None? <==> forall i :: 0 <= i < |names| && i < |values| ==> names[i] != key
    ensures r.Some? ==> exists i :: 0 <= i < |names| && i < |values| && names[i] == key && values[i] == r.value &&
                          forall j :: i < j < |names| && j < |values| ==> names[j] != key
  {
    if names == [] || values == [] then None
    else
      var rest := FieldValue(names[1..], values[1..], key);
      if rest.Some? then rest
      else if names[0] == key then Some(values[0])
      else None
  }

  /** A dict key as Python compares it: a float with an integral value is the same key as
      that int. */
  function NumKey(v: Value): Value {
    match v
    case Int(i) => Int(i)
    case Float(x) => if x == x.Floor as real then Int(x.Floor) else Float(x)
  }

  /** One record's entry: fails on a non-polygon (the shape type assertion), on a record
      without an 'ID' field, and on a record without parts. */
  function RecordEntry(names: seq<string>, rec: ShapeRecord): (r: Result<(Value, Polygon)>)
    ensures r.Err? ==> r.error == NotPolygon || r.error == MissingIdField || r.error == NoParts
  {
    if rec.shapeType != PolygonShapeType then Err(NotPolygon)
    else
      var id := FieldValue(names, rec.record, "ID");
      if id.None? then Err(MissingIdField)
      else
        match ShapePolygon(rec.parts, rec.points)
        case Err(e) => Err(e)
        case Ok(poly) => Ok((NumKey(id.value), poly))
  }

  /** The zone map after the records rs, starting from acc: later records overwrite. */
  function ShapesFrom(acc: map<Value, Polygon>, names: seq<string>, rs: seq<ShapeRecord>): (r: Result<map<Value, Polygon>>)
    decreases |rs|
    ensures r.Err? ==> r.error == NotPolygon || r.error == MissingIdField || r.error == NoParts
  {
    if rs == [] then Ok(acc)
    else
      match RecordEntry(names, rs[0])
      case Err(e) => Err(e)
      case Ok(entry) => ShapesFrom(acc[entry.0 := entry.1], names, rs[1..])
  }

  function ZoneShapes(sf: ShapeFile): Result<map<Value, Polygon>> {
    ShapesFrom(map[], Slice(sf.fields, 1, None), sf.records)
  }

  /** The entry the last record with key id gives, if any. */
  function LastEntry(names: seq<string>, rs: seq<ShapeRecord>, id: Value): Option<Polygon> {
    if rs == [] then None
    else
      var rest := LastEntry(names, rs[1..], id);
      if rest.Some? then rest
      else if RecordEntry(names, rs[0]).Ok? && RecordEntry(names, rs[0]).value.0 == id
      then Some(RecordEntry(names, rs[0]).value.1)
      else None
  }

  /** Reading fails exactly when some record fails; otherwise every id maps to the polygon of
      the last record carrying it, and only ids some record carries are present. */
  lemma {:induction false} ShapesFromSpec(acc: map<Value, Polygon>, names: seq<string>, rs: seq<ShapeRecord>)
    decreases |rs|
    ensures ShapesFrom(acc, names, rs).Err? <==> exists i :: 0 <= i < |rs| && RecordEntry(names, rs[i]).Err?
    ensures ShapesFrom(acc, names, rs).Ok? ==>
      forall id ::
        (id in ShapesFrom(acc, names, rs).value <==> id in acc || LastEntry(names, rs, id).Some?) &&
        (id in ShapesFrom(acc, names, rs).value ==>
           ShapesFrom(acc, names, rs).value[id] == if LastEntry(names, rs, id).Some? then LastEntry(names, rs, id).value else acc[id])
  {
    if rs != [] {
      assert forall i :: 1 <= i < |rs| ==> rs[i] == rs[1..][i - 1];
      match RecordEntry(names, rs[0])
      case Err(e) =>
      case Ok(entry) =>
        ShapesFromSpec(acc[entry.0 := entry.1], names, rs[1..]);
        if exists i :: 0 <= i < |rs[1..]| && RecordEntry(names, rs[1..][i]).Err? {
          var i :| 0 <= i < |rs[1..]| && RecordEntry(names, rs[1..][i]).Err?;
          assert RecordEntry(names, rs[i + 1]).Err?;
        }
    }
  }

  /** The ring split of one record: the exterior from the first pair of offsets, a hole from
      each later one. */
  method BuildPolygon(parts: seq<nat>, points: seq<Point2>) returns (polygon: Polygon)
    requires parts != []
    ensures Ok(polygon) == ShapePolygon(parts, points)
  {
    var ringidx := ZipLongest(parts);
    var exterior := Slice(points, ringidx[0].0, ringidx[0].1);
    var interior: seq<Ring> := [];
    var j := 1;
    while j < |ringidx|
      invariant 1 <= j <= |ringidx| && |interior| == j - 1
      invariant forall i :: 0 <= i < j - 1 ==> interior[i] == Slice(points, ringidx[i + 1].0, ringidx[i + 1].1)
    {
      interior := interior + [Slice(points, ringidx[j].0, ringidx[j].1)];
      j := j + 1;
    }
    ghost var rings := Rings(parts, points);
    assert forall i :: 0 <= i < |ringidx| ==> rings[i] == Slice(points, ringidx[i].0, ringidx[i].1);
    assert interior == rings[1..];
    polygon := Polygon(exterior, interior);
  }

  /** _get_zone_shapes' loop over the shapefile's records. */
  method GetZoneShapes(sf: ShapeFile) returns (r: Result<map<Value, Polygon>>)
    ensures r == ZoneShapes(sf)
  {
    var fields := Slice(sf.fields, 1, None);
    var zoneShapes: map<Value, Polygon> := map[];
    var rs := sf.records;
    var k := 0;
    while k < |rs|
      invariant 0 <= k <= |rs|
      invariant ZoneShapes(sf) == ShapesFrom(zoneShapes, fields, rs[k..])
    {
      var sr := rs[k];
      if sr.shapeType != PolygonShapeType {
        return Err(NotPolygon);
      }
      var zonesId := FieldValue(fields, sr.record, "ID");
      if zonesId.None? {
        return Err(MissingIdField);
      }
      if |sr.parts| == 0 {
        return Err(NoParts);
      }
      var polygon := BuildPolygon(sr.parts, sr.points);
      assert RecordEntry(fields, sr) == Ok((NumKey(zonesId.value), polygon));
      zoneShapes := zoneShapes[NumKey(zonesId.value) := polygon];
      assert rs[k..][1..] == rs[k + 1..];
      k := k + 1;
    }
    return Ok(zoneShapes);
  }
}

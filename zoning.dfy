/** The zones query of MulandDB._get_zones (mulandweb/mulanddb.py:157-209) and the
    annotation of the points with it in MulandDB.get (mulandweb/mulanddb.py:63-65). */
module Zoning {
  import opened Common
  import opened Tables
  import opened Joins
  import opened Points

  /** Whether a stored area contains the point (lng, lat) given in reference system 4326: the
      reprojection to 900913 and ST_Contains, which the model leaves to the database. */
  type Contains = (Area, Num, Num) -> bool

  /** The zones query's join condition: a zone of model m whose area contains the point. */
  function ZoneMatch(contains: Contains, m: int): (QueryPoint, ZoneRow) -> bool {
    (p: QueryPoint, z: ZoneRow) => z.modelsId == m && contains(z.area, p.lng, p.lat)
  }

  /** A zones record: the point's 1-based index, then the zone's attribute vector. */
  function ZoneRecord(p: QueryPoint, z: ZoneRow): seq<Value> {
    [Int(p.id + 1)] + Floats(z.data)
  }

  /** A zone map entry: the point's index and the containing zone's id. */
  function ZoneMapEntry(p: QueryPoint, z: ZoneRow): (nat, int) {
    (p.id, z.id)
  }

  /** The zones records, in the query's point order. */
  function ZonesRecords(zones: seq<ZoneRow>, contains: Contains, m: int, ps: seq<QueryPoint>): seq<seq<Value>> {
    Join(ps, zones, ZoneMatch(contains, m), ZoneRecord)
  }

  /** The zone map, row for row beside the records. */
  function ZoneMap(zones: seq<ZoneRow>, contains: Contains, m: int, ps: seq<QueryPoint>): seq<(nat, int)> {
    Join(ps, zones, ZoneMatch(contains, m), ZoneMapEntry)
  }

  /** _get_zones' loop: one record and one zone map entry per result row. */
  method GetZones(zones: seq<ZoneRow>, contains: Contains, m: int, ps: seq<QueryPoint>)
    returns (zoneMap: seq<(nat, int)>, records: seq<seq<Value>>)
    ensures zoneMap == ZoneMap(zones, contains, m, ps)
    ensures records == ZonesRecords(zones, contains, m, ps)
  {
    var rows := Pairs(ps, zones, ZoneMatch(contains, m));
    zoneMap, records := [], [];
    var k := 0;
    while k < |rows|
      invariant 0 <= k <= |rows|
      invariant |zoneMap| == k && |records| == k
      invariant forall j :: 0 <= j < k ==>
        zoneMap[j] == (rows[j].0.id, rows[j].1.id) && records[j] == [Int(rows[j].0.id + 1)] + Floats(rows[j].1.data)
    {
      var (point, zone) := rows[k];
      var data := [Int(point.id + 1)];
      data := data + Floats(zone.data);
      records := records + [data];
      zoneMap := zoneMap + [(point.id, zone.id)];
      k := k + 1;
    }
  }

  /** Every zone map entry names a point of ps and a zone of model m containing it. */
  lemma ZoneMapMember(zones: seq<ZoneRow>, contains: Contains, m: int, ps: seq<QueryPoint>, e: (nat, int))
    ensures e in ZoneMap(zones, contains, m, ps) <==>
      exists p, z :: p in ps && z in zones && z.modelsId == m && contains(z.area, p.lng, p.lat) &&
                     e == (p.id, z.id)
  {
    JoinMember(ps, zones, ZoneMatch(contains, m), ZoneMapEntry, e);
  }

  /** The zone map lists each (point, containing zone) pair exactly once: for distinct point
      ids and the zones primary key there is no repeated entry. */
  lemma ZoneMapNoDup(zones: seq<ZoneRow>, contains: Contains, m: int, ps: seq<QueryPoint>)
    requires UniqueBy(zones, ZoneKey) && IdsArePositions(ps)
    ensures NoDup(ZoneMap(zones, contains, m, ps))
  {
    UniqueByNoDup(zones, ZoneKey);
    forall p1, z1, p2, z2 |
      p1 in ps && z1 in zones && ZoneMatch(contains, m)(p1, z1) &&
      p2 in ps && z2 in zones && ZoneMatch(contains, m)(p2, z2) &&
      ZoneMapEntry(p1, z1) == ZoneMapEntry(p2, z2)
      ensures p1 == p2 && z1 == z2
    {
      UniqueByMembers(zones, ZoneKey, z1, z2);
    }
    JoinNoDup(ps, zones, ZoneMatch(contains, m), ZoneMapEntry);
  }

  /** Records and zone map are aligned: record k is the point index plus one followed by the
      attributes of the zone that zone map entry k names, a zone of model m. */
  lemma ZonesAligned(zones: seq<ZoneRow>, contains: Contains, m: int, ps: seq<QueryPoint>, k: nat)
    requires k < |ZoneMap(zones, contains, m, ps)|
    ensures |ZonesRecords(zones, contains, m, ps)| == |ZoneMap(zones, contains, m, ps)|
    ensures exists z ::
      z in zones && z.modelsId == m && z.id == ZoneMap(zones, contains, m, ps)[k].1 &&
      ZonesRecords(zones, contains, m, ps)[k] == [Int(ZoneMap(zones, contains, m, ps)[k].0 + 1)] + Floats(z.data)
  {
    var pairs := Pairs(ps, zones, ZoneMatch(contains, m));
    PairsMember(ps, zones, ZoneMatch(contains, m), pairs[k]);
    var z := pairs[k].1;
    assert z in zones && z.modelsId == m;
  }

  /** The zones query orders by point index: over points in id order, the index column of the
      records never decreases. */
  lemma ZonesOrdered(zones: seq<ZoneRow>, contains: Contains, m: int, ps: seq<QueryPoint>)
    requires IdsArePositions(ps)
    ensures forall i, j :: 0 <= i < j < |ZoneMap(zones, contains, m, ps)| ==>
              ZoneMap(zones, contains, m, ps)[i].0 <= ZoneMap(zones, contains, m, ps)[j].0
  {
    PairsGrouped(ps, zones, ZoneMatch(contains, m), (p: QueryPoint) => p.id);
  }

  /** Every zone map entry names a position of ps. */
  lemma ZoneMapBounds(zones: seq<ZoneRow>, contains: Contains, m: int, ps: seq<QueryPoint>)
    requires IdsArePositions(ps)
    ensures forall k :: 0 <= k < |ZoneMap(zones, contains, m, ps)| ==> ZoneMap(zones, contains, m, ps)[k].0 < |ps|
  {
    var pairs := Pairs(ps, zones, ZoneMatch(contains, m));
    forall k | 0 <= k < |pairs| ensures pairs[k].0.id < |ps| {
      PairsMember(ps, zones, ZoneMatch(contains, m), pairs[k]);
    }
  }

  /** The points after get() has written the zone map into them, entry by entry. */
  function Annotated(ps: seq<QueryPoint>, zm: seq<(nat, int)>): (r: seq<QueryPoint>)
    requires forall k :: 0 <= k < |zm| ==> zm[k].0 < |ps|
    ensures |r| == |ps|
  {
    if zm == [] then ps
    else
      var q := Annotated(ps, zm[..|zm| - 1]);
      var e := zm[|zm| - 1];
      q[e.0 := q[e.0].(zonesId := Some(e.1))]
  }

  /** The zone the last zone map entry for point index k names. */
  function LastEntryFor(zm: seq<(nat, int)>, k: nat): Option<int> {
    if zm == [] then None
    else if zm[|zm| - 1].0 == k then Some(zm[|zm| - 1].1)
    else LastEntryFor(zm[..|zm| - 1], k)
  }

  /** No entry for k gives no zone; otherwise the zone of the entry for k that no later entry
      for k follows. */
  lemma {:induction false} LastEntryForSpec(zm: seq<(nat, int)>, k: nat)
    ensures LastEntryFor(zm, k).None? <==> forall j :: 0 <= j < |zm| ==> zm[j].0 != k
    ensures LastEntryFor(zm, k).Some? ==>
      exists j :: 0 <= j < |zm| && zm[j] == (k, LastEntryFor(zm, k).value) &&
                  forall j' :: j < j' < |zm| ==> zm[j'].0 != k
  {
    if zm != [] {
      var n := |zm| - 1;
      LastEntryForSpec(zm[..n], k);
      if zm[n].0 != k && LastEntryFor(zm, k).Some? {
        var j :| 0 <= j < n && zm[..n][j] == (k, LastEntryFor(zm, k).value) &&
                 forall j' :: j < j' < n ==> zm[..n][j'].0 != k;
        assert forall j' :: j < j' < |zm| ==> zm[j'].0 != k by {
          forall j' | j < j' < |zm| ensures zm[j'].0 != k {
            if j' < n { assert zm[..n][j'] == zm[j']; }
          }
        }
      }
    }
  }

  /** Annotation writes into each point the zone of its index's last zone map entry, and
      leaves a point without an entry as it was. */
  lemma {:induction false} AnnotatedAt(ps: seq<QueryPoint>, zm: seq<(nat, int)>, k: nat)
    requires forall j :: 0 <= j < |zm| ==> zm[j].0 < |ps|
    requires k < |ps|
    ensures Annotated(ps, zm)[k] ==
      if LastEntryFor(zm, k).Some? then ps[k].(zonesId := LastEntryFor(zm, k)) else ps[k]
  {
    if zm != [] {
      AnnotatedAt(ps, zm[..|zm| - 1], k);
    }
  }

  /** The zone written into a point: the last zone of model m, in table order, whose area
      contains it. */
  function LastContaining(zones: seq<ZoneRow>, contains: Contains, m: int, p: QueryPoint): Option<int> {
    if zones == [] then None
    else
      var rest := LastContaining(zones[1..], contains, m, p);
      if rest.Some? then rest
      else if zones[0].modelsId == m && contains(zones[0].area, p.lng, p.lat) then Some(zones[0].id)
      else None
  }

  /** No containing zone of model m gives no zone; otherwise the id of a containing zone of
      model m that no later containing zone follows (the tie rule when zones overlap). */
  lemma {:induction false} LastContainingSpec(zones: seq<ZoneRow>, contains: Contains, m: int, p: QueryPoint)
    ensures LastContaining(zones, contains, m, p).None? <==>
      forall j :: 0 <= j < |zones| ==> !(zones[j].modelsId == m && contains(zones[j].area, p.lng, p.lat))
    ensures LastContaining(zones, contains, m, p).Some? ==>
      exists j :: 0 <= j < |zones| && zones[j].id == LastContaining(zones, contains, m, p).value &&
        zones[j].modelsId == m && contains(zones[j].area, p.lng, p.lat) &&
        forall j' :: j < j' < |zones| ==> !(zones[j'].modelsId == m && contains(zones[j'].area, p.lng, p.lat))
  {
    if zones != [] {
      var tail := zones[1..];
      LastContainingSpec(tail, contains, m, p);
      var r := LastContaining(zones, contains, m, p);
      if LastContaining(tail, contains, m, p).Some? {
        var j :| 0 <= j < |tail| && tail[j].id == r.value &&
          tail[j].modelsId == m && contains(tail[j].area, p.lng, p.lat) &&
          forall j' :: j < j' < |tail| ==> !(tail[j'].modelsId == m && contains(tail[j'].area, p.lng, p.lat));
        assert zones[j + 1] == tail[j];
        forall j' | j + 1 < j' < |zones|
          ensures !(zones[j'].modelsId == m && contains(zones[j'].area, p.lng, p.lat))
        {
          assert zones[j'] == tail[j' - 1];
        }
      } else {
        assert forall j :: 1 <= j < |zones| ==> zones[j] == tail[j - 1];
      }
    }
  }

  /** LastEntryFor over concatenated entries: the later part decides when it has an entry. */
  lemma {:induction false} LastEntryConcat(a: seq<(nat, int)>, b: seq<(nat, int)>, k: nat)
    ensures LastEntryFor(a + b, k) == if LastEntryFor(b, k).Some? then LastEntryFor(b, k) else LastEntryFor(a, k)
  {
    if b != [] {
      var n := |b| - 1;
      assert (a + b)[..|a + b| - 1] == a + b[..n];
      LastEntryConcat(a, b[..n], k);
    } else {
      assert a + b == a;
    }
  }

  /** The entries one point contributes name its containing zones in table order. */
  lemma {:induction false} LastEntryPartners(zones: seq<ZoneRow>, contains: Contains, m: int, p: QueryPoint, k: nat)
    ensures LastEntryFor(JoinOne(p, zones, ZoneMatch(contains, m), ZoneMapEntry), k) ==
      if p.id == k then LastContaining(zones, contains, m, p) else None
  {
    if zones != [] {
      var head := if ZoneMatch(contains, m)(p, zones[0]) then [ZoneMapEntry(p, zones[0])] else [];
      LastEntryPartners(zones[1..], contains, m, p, k);
      JoinOneCons(p, zones, ZoneMatch(contains, m), ZoneMapEntry);
      LastEntryConcat(head, JoinOne(p, zones[1..], ZoneMatch(contains, m), ZoneMapEntry), k);
      if head != [] {
        assert [] + head == head;
        LastEntryConcat([], head, k);
      }
    }
  }

  /** The last zone map entry for index k is that of the last containing zone of the point
      with id k, and there is none when no point has id k. */
  lemma {:induction false} LastEntryPairs(zones: seq<ZoneRow>, contains: Contains, m: int, ps: seq<QueryPoint>, k: nat)
    requires DistinctIds(ps)
    ensures (forall q :: q in ps ==> q.id != k) ==> LastEntryFor(ZoneMap(zones, contains, m, ps), k).None?
    ensures forall p :: p in ps && p.id == k ==>
      LastEntryFor(ZoneMap(zones, contains, m, ps), k) == LastContaining(zones, contains, m, p)
  {
    if ps != [] {
      var rest := ps[1..];
      assert DistinctIds(rest) by {
        forall i, j | 0 <= i < |rest| && 0 <= j < |rest| && rest[i].id == rest[j].id ensures i == j {
          assert rest[i] == ps[i + 1] && rest[j] == ps[j + 1];
        }
      }
      LastEntryPairs(zones, contains, m, rest, k);
      JoinCons(ps, zones, ZoneMatch(contains, m), ZoneMapEntry);
      LastEntryConcat(JoinOne(ps[0], zones, ZoneMatch(contains, m), ZoneMapEntry), ZoneMap(zones, contains, m, rest), k);
      LastEntryPartners(zones, contains, m, ps[0], k);
      if ps[0].id == k {
        forall q | q in rest ensures q.id != k {
          var i :| 0 <= i < |rest| && rest[i] == q;
          assert ps[i + 1] == q;
        }
      }
      assert forall q :: q in ps <==> q == ps[0] || q in rest;
    }
  }

  /** The points get() leaves behind: each point of ps annotated with its zone map entries. */
  function Resolve(zones: seq<ZoneRow>, contains: Contains, m: int, ps: seq<QueryPoint>): seq<QueryPoint>
    requires IdsArePositions(ps)
  {
    ZoneMapBounds(zones, contains, m, ps);
    Annotated(ps, ZoneMap(zones, contains, m, ps))
  }

  /** Resolving keeps every point's id, coordinates and type and gives it the last zone of
      model m, in table order, containing it; a point no zone contains is left as it was. */
  lemma ResolveAt(zones: seq<ZoneRow>, contains: Contains, m: int, ps: seq<QueryPoint>, k: nat)
    requires IdsArePositions(ps) && k < |ps|
    ensures |Resolve(zones, contains, m, ps)| == |ps|
    ensures Resolve(zones, contains, m, ps)[k] ==
      if LastContaining(zones, contains, m, ps[k]).Some?
      then ps[k].(zonesId := LastContaining(zones, contains, m, ps[k])) else ps[k]
  {
    ZoneMapBounds(zones, contains, m, ps);
    AnnotatedAt(ps, ZoneMap(zones, contains, m, ps), k);
    LastEntryPairs(zones, contains, m, ps, k);
  }

  /** Resolving twice resolves once: the second pass finds the same zones. */
  lemma ResolveIdempotent(zones: seq<ZoneRow>, contains: Contains, m: int, ps: seq<QueryPoint>)
    requires IdsArePositions(ps)
    ensures IdsArePositions(Resolve(zones, contains, m, ps))
    ensures Resolve(zones, contains, m, Resolve(zones, contains, m, ps)) == Resolve(zones, contains, m, ps)
  {
    var rs := Resolve(zones, contains, m, ps);
    forall k | 0 <= k < |ps| ensures rs[k].id == k {
      ResolveAt(zones, contains, m, ps, k);
    }
    forall k | 0 <= k < |ps|
      ensures Resolve(zones, contains, m, rs)[k] == rs[k]
    {
      ResolveAt(zones, contains, m, ps, k);
      ResolveAt(zones, contains, m, rs, k);
      LastContainingSees(zones, contains, m, ps[k], rs[k]);
    }
  }

  /** The zone lookup reads only a point's coordinates. */
  lemma {:induction false} LastContainingSees(zones: seq<ZoneRow>, contains: Contains, m: int, p: QueryPoint, q: QueryPoint)
    requires p.lng == q.lng && p.lat == q.lat
    ensures LastContaining(zones, contains, m, p) == LastContaining(zones, contains, m, q)
  {
    if zones != [] {
      LastContainingSees(zones[1..], contains, m, p, q);
    }
  }

  /** The zones query reads only the points' ids and coordinates, so it finds the same
      records again over the points it annotated. */
  lemma ZonesRecordsResolved(zones: seq<ZoneRow>, contains: Contains, m: int, ps: seq<QueryPoint>)
    requires IdsArePositions(ps)
    ensures ZonesRecords(zones, contains, m, Resolve(zones, contains, m, ps)) == ZonesRecords(zones, contains, m, ps)
  {
    var rs := Resolve(zones, contains, m, ps);
    forall k | 0 <= k < |ps| ensures rs[k].id == ps[k].id && rs[k].lng == ps[k].lng && rs[k].lat == ps[k].lat {
      ResolveAt(zones, contains, m, ps, k);
    }
    JoinCongruent(rs, ps, zones, ZoneMatch(contains, m), ZoneRecord);
  }
}

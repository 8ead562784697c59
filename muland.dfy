/** The MulandDB object (mulandweb/mulanddb.py:21-505): a session over one model and one
    request, whose get() gathers the simulation input and annotates the request's points. */
module Muland {
  import opened Common
  import opened Request
  import opened Tables
  import opened Joins
  import opened Points
  import opened Zoning
  import opened Engine

  class MulandDB {
    /** The database snapshot the session reads, and how it tests containment. */
    const db: Database
    const contains: Contains
    const modelsId: int
    const loc: seq<LocationDict>
    /** The query points; get() writes their zones into them. */
    var points: seq<QueryPoint>

    ghost predicate Valid()
      reads this
    {
      ModelWithId(db.models, modelsId).Some? && IdsArePositions(points)
    }

    constructor (db: Database, contains: Contains, modelsId: int, loc: seq<LocationDict>, points: seq<QueryPoint>)
      requires ModelWithId(db.models, modelsId).Some? && IdsArePositions(points)
      ensures this.db == db && this.contains == contains && this.modelsId == modelsId
      ensures this.loc == loc && this.points == points
      ensures Valid()
    {
      this.db := db;
      this.contains := contains;
      this.modelsId := modelsId;
      this.loc := loc;
      this.points := points;
    }

    /** __init__: find the model by name, then flatten the locations into points. Fails with
        ModelNotFound when no model has the name, and with MalformedLocation when a location
        or unit lacks a field the flattening reads. */
    static method Open(db: Database, contains: Contains, model: string, locations: seq<LocationDict>)
      returns (r: Result<MulandDB>)
      ensures OpenError(db.models, model, locations).Some? ==>
                r == Err(OpenError(db.models, model, locations).value)
      ensures OpenError(db.models, model, locations).None? ==>
                && r.Ok? && fresh(r.value) && r.value.Valid()
                && r.value.db == db && r.value.contains == contains && r.value.loc == locations
                && r.value.modelsId == ModelNamed(db.models, model).value.id
                && r.value.points == Flatten(locations)
    {
      var row := ModelNamed(db.models, model);
      if row.None? {
        return Err(ModelNotFound);
      }
      var flattened := FlattenLocations(locations);
      if flattened.Err? {
        return Err(flattened.error);
      }
      FlattenSpec(locations);
      var session := new MulandDB(db, contains, row.value.id, locations, flattened.value);
      return Ok(session);
    }

    /** _get_agents_records' loop: the fixed columns of each model row, then its data vector. */
    method GetAgentsRecords() returns (records: seq<seq<Value>>)
      ensures records == Agents(db, modelsId)
    {
      var rows := Select(db.agents, AgentOfModel(modelsId));
      records := [];
      var k := 0;
      while k < |rows|
        invariant 0 <= k <= |rows| && |records| == k
        invariant forall j :: 0 <= j < k ==> records[j] == AgentRecord(rows[j])
      {
        var row := rows[k];
        var data := [Int(row.id), Int(row.marketsId), Int(row.aggraId), Float(row.upperbb)];
        data := data + Floats(row.data);
        records := records + [data];
        k := k + 1;
      }
    }

    /** _get_agents_zones_records' loop over the zone join. */
    method GetAgentsZonesRecords() returns (records: seq<seq<Value>>)
      ensures records == AgentsZones(db, modelsId, points)
    {
      var rows := Pairs(points, db.agentsZones, AgentZoneMatch(modelsId));
      records := [];
      var k := 0;
      while k < |rows|
        invariant 0 <= k <= |rows| && |records| == k
        invariant forall j :: 0 <= j < k ==> records[j] == AgentZoneRecord(rows[j].0, rows[j].1)
      {
        var (point, row) := rows[k];
        var data := [Int(row.agentsId), Int(point.id + 1), Float(row.acc), Float(row.att)];
        data := data + Floats(row.data);
        records := records + [data];
        k := k + 1;
      }
    }

    /** _get_real_estates_zones' loop over the zone-and-type join. */
    method GetRealEstatesZones() returns (records: seq<seq<Value>>)
      ensures records == RealEstatesZones(db, modelsId, points)
    {
      var rows := Pairs(points, db.realEstatesZones, RealEstateZoneMatch(modelsId));
      records := [];
      var k := 0;
      while k < |rows|
        invariant 0 <= k <= |rows| && |records| == k
        invariant forall j :: 0 <= j < k ==> records[j] == RealEstateZoneRecord(rows[j].0, rows[j].1)
      {
        var (point, row) := rows[k];
        var data := [Int(row.typesId), Int(point.id + 1), Int(row.marketsId)];
        data := data + Floats(row.data);
        records := records + [data];
        k := k + 1;
      }
    }

    /** The categories get() builds once the points carry their zones, its zones query
        having returned zonesRecords. */
    method Collect(zonesRecords: seq<seq<Value>>) returns (data: seq<Category>)
      requires Valid()
      requires Resolve(db.zones, contains, modelsId, points) == points
      requires zonesRecords == ZonesRecords(db.zones, contains, modelsId, points)
      ensures data == Assemble(db, contains, modelsId, points)
    {
      var headers := ModelWithId(db.models, modelsId).value;
      var agents := GetAgentsRecords();
      var agentsZones := GetAgentsZonesRecords();
      var realEstatesZones := GetRealEstatesZones();
      data := [
        Category("zones", Table(["I_IDX"] + headers.zonesHeader, zonesRecords)),
        Category("agents", Table(["IDAGENT", "IDMARKET", "IDAGGRA", "UPPERBB"] + headers.agentsHeader, agents)),
        Category("agents_zones", Table(["H_IDX", "I_IDX", "ACC", "P_LN_ATT"] + headers.agentsZonesHeader, agentsZones)),
        Category("bids_adjustments", Table(["H_IDX", "V_IDX", "I_IDX", "BIDADJ"], BidsAdjustments(db, modelsId, points))),
        Category("bids_functions", Table(BidsFunctionsHeader, BidsFunctions(db, modelsId))),
        Category("demand", Table(["H_IDX", "DEMAND"], Demand(db, modelsId))),
        Category("demand_exogenous_cutoff", Table(["H_IDX", "V_IDX", "I_IDX", "DCUTOFF"], DemandExogenousCutoff(db, modelsId, points))),
        Category("real_estates_zones", Table(["V_IDX", "I_IDX", "M_IDX"] + headers.realEstatesZonesHeader, realEstatesZones)),
        Category("rent_adjustments", Table(["V_IDX", "I_IDX", "RENTADJ"], RentAdjustments(db, modelsId, points))),
        Category("rent_functions", Table(RentFunctionsHeader, RentFunctions(db, modelsId))),
        Category("subsidies", Table(["H_IDX", "V_IDX", "I_IDX", "SUBSIDIES"], Subsidies(db, modelsId, points))),
        Category("supply", Table(["V_IDX", "I_IDX", "NREST"], Supply(db, modelsId, points)))];
      ghost var d := Assemble(db, contains, modelsId, points);
      forall j | 0 <= j < |d| ensures data[j] == d[j] {
        assert d[j] == Category(CategoryNames[j], Table(Header(headers, j), Records(db, contains, modelsId, points, points, j)));
      }
    }

    /** get(): the twelve categories of Assemble, after writing each point's zone into it.
        With no points every query's VALUES list is empty and the database rejects it. */
    method Get() returns (r: Result<seq<Category>>)
      requires Valid()
      modifies this
      ensures Valid()
      ensures old(points) == [] ==> r == Err(EmptyValues) && points == old(points)
      ensures old(points) != [] ==>
                && r == Ok(Assemble(db, contains, modelsId, old(points)))
                && points == Resolve(db.zones, contains, modelsId, old(points))
    {
      if points == [] {
        return Err(EmptyValues);
      }
      ghost var before := points;
      var zoneMap, zonesRecords := GetZones(db.zones, contains, modelsId, points);
      ZoneMapBounds(db.zones, contains, modelsId, points);
      var k := 0;
      while k < |zoneMap|
        invariant 0 <= k <= |zoneMap|
        invariant points == Annotated(before, zoneMap[..k])
      {
        var (pointIdx, zonesId) := zoneMap[k];
        points := points[pointIdx := points[pointIdx].(zonesId := Some(zonesId))];
        assert zoneMap[..k + 1][..k] == zoneMap[..k];
        k := k + 1;
      }
      assert zoneMap[..k] == zoneMap;
      assert points == Resolve(db.zones, contains, modelsId, before);
      AssembleIdempotent(db, contains, modelsId, before);
      ResolveIdempotent(db.zones, contains, modelsId, before);
      ZonesRecordsResolved(db.zones, contains, modelsId, before);
      var data := Collect(zonesRecords);
      return Ok(data);
    }
  }
}

/** ModelImporter (mulandweb/mulanddb.py:506-618): creating a model row from the CSV headers,
    then importing its zones and rent adjustments into the store. */
module Importer {
  import opened Common
  import opened Tables
  import opened Shapes
  import opened Points
  import opened Zoning

  /** A CSV cell as a reader with QUOTE_NONNUMERIC yields it: quoted fields are text and
      unquoted ones are floats. */
  datatype Cell = Text(s: string) | Number(x: Num)

  /** A ';'-separated file: its header row (quoted column names) and its data rows, or Empty
      when it has no row at all, so that next(reader) stops. */
  datatype CsvFile = Empty | Csv(header: seq<string>, rows: seq<seq<Cell>>)

  /** The files the importer can open, by path. */
  datatype Inputs = Inputs(csv: map<string, CsvFile>, shapefiles: map<string, ShapeFile>)

  /** int() of a text field: the integer it spells, or None on ValueError. */
  type IntParser = string -> Option<int>

  /** int() of a float: truncation toward zero. */
  function Trunc(x: Num): (r: int)
    ensures x >= 0.0 ==> r as real <= x < r as real + 1.0
    ensures x < 0.0 ==> r as real - 1.0 < x <= r as real
  {
    if x >= 0.0 then x.Floor else -((-x).Floor)
  }

  function CellInt(c: Cell, parseInt: IntParser): Result<int> {
    match c
    case Number(x) => Ok(Trunc(x))
    case Text(s) => if parseInt(s).Some? then Ok(parseInt(s).value) else Err(NotAnInteger)
  }

  /** The database's cast of a text value bound to a float column: the number it spells, or
      None where the database refuses the value. */
  type Cast = string -> Option<Num>

  /** A cell as a float column stores it: a number as it is, a text cell as the database
      casts it. */
  function CellNum(c: Cell, cast: Cast): Option<Num> {
    match c
    case Number(x) => Some(x)
    case Text(s) => cast(s)
  }

  /** The numbers of a float column, as the store accepts them: every cell must be a number
      or a text the database casts. */
  function Numbers(cs: seq<Cell>, cast: Cast): (r: Option<seq<Num>>)
    ensures r.Some? <==> forall k :: 0 <= k < |cs| ==> CellNum(cs[k], cast).Some?
    ensures r.Some? ==> |r.value| == |cs| && forall k :: 0 <= k < |cs| ==> r.value[k] == CellNum(cs[k], cast).value
  {
    if cs == [] then Some([])
    else if CellNum(cs[0], cast).None? || Numbers(cs[1..], cast).None? then None
    else Some([CellNum(cs[0], cast).value] + Numbers(cs[1..], cast).value)
  }

  /** The four dynamic headers of a model. */
  datatype Headers = Headers(zones: seq<string>, agents: seq<string>, agentsZones: seq<string>, realEstatesZones: seq<string>)

  /** A header row without its first n key columns. */
  function HeaderOf(inputs: Inputs, path: string, n: nat): (r: Result<seq<string>>)
    ensures r.Ok? <==> path in inputs.csv && inputs.csv[path].Csv?
    ensures r.Ok? ==> var h := inputs.csv[path].header;
                      r.value == if |h| <= n then [] else h[n..]
    ensures r.Err? ==> r.error == if path in inputs.csv then EmptyCsv else FileNotFound
  {
    if path !in inputs.csv then Err(FileNotFound)
    else match inputs.csv[path]
      case Empty => Err(EmptyCsv)
      case Csv(h, _) => Ok(Slice(h, n, None))
  }

  /** The headers db_create_model reads, zones first: the zones header without 1 key column,
      agents and agents_zones without 4, real_estates_zones without 3. */
  function ModelHeaders(inputs: Inputs, zones: string, agents: string, agentsZones: string, realEstatesZones: string): (r: Result<Headers>)
    ensures r.Ok? <==> HeaderOf(inputs, zones, 1).Ok? && HeaderOf(inputs, agents, 4).Ok? &&
                       HeaderOf(inputs, agentsZones, 4).Ok? && HeaderOf(inputs, realEstatesZones, 3).Ok?
    ensures r.Ok? ==> r.value == Headers(HeaderOf(inputs, zones, 1).value, HeaderOf(inputs, agents, 4).value,
                                         HeaderOf(inputs, agentsZones, 4).value, HeaderOf(inputs, realEstatesZones, 3).value)
    ensures r.Err? ==> r.error == (if HeaderOf(inputs, zones, 1).Err? then HeaderOf(inputs, zones, 1).error
                                   else if HeaderOf(inputs, agents, 4).Err? then HeaderOf(inputs, agents, 4).error
                                   else if HeaderOf(inputs, agentsZones, 4).Err? then HeaderOf(inputs, agentsZones, 4).error
                                   else HeaderOf(inputs, realEstatesZones, 3).error)
  {
    var z := HeaderOf(inputs, zones, 1);
    if z.Err? then Err(z.error) else
    var a := HeaderOf(inputs, agents, 4);
    if a.Err? then Err(a.error) else
    var az := HeaderOf(inputs, agentsZones, 4);
    if az.Err? then Err(az.error) else
    var rez := HeaderOf(inputs, realEstatesZones, 3);
    if rez.Err? then Err(rez.error) else
    Ok(Headers(z.value, a.value, az.value, rez.value))
  }

  /** A zones value before the store types it: the data cells are still cells. */
  datatype ZoneValue = ZoneValue(modelsId: int, id: int, area: Area, data: seq<Cell>)

  /** One zones.csv row: id = int(row[0]), the polygon the shapefile gives that id, and the
      other cells as data. */
  function ZoneValueOf(row: seq<Cell>, shapes: map<Value, Polygon>, m: int, srid: int, parseInt: IntParser): (r: Result<ZoneValue>)
    ensures r.Err? ==> r.error == ShortRow || r.error == NotAnInteger || r.error == MissingShape
  {
    if row == [] then Err(ShortRow)
    else match CellInt(row[0], parseInt)
      case Err(e) => Err(e)
      case Ok(id) => if Int(id) !in shapes then Err(MissingShape) else Ok(ZoneValue(m, id, Area(shapes[Int(id)], srid), row[1..]))
  }

  function ZoneValueFn(shapes: map<Value, Polygon>, m: int, srid: int, parseInt: IntParser): seq<Cell> -> Result<ZoneValue> {
    row => ZoneValueOf(row, shapes, m, srid, parseInt)
  }

  /** The values of all rows, one per row in order, or the first failing row's error. */
  function ZoneValues(rows: seq<seq<Cell>>, shapes: map<Value, Polygon>, m: int, srid: int, parseInt: IntParser): Result<seq<ZoneValue>> {
    MapAll(rows, ZoneValueFn(shapes, m, srid, parseInt))
  }

  /** Each row of zones.csv as written names an existing zone id and carries its data, and a
      row whose id the shapefile lacks is fatal. */
  lemma ZoneValueSpec(row: seq<Cell>, shapes: map<Value, Polygon>, m: int, srid: int, parseInt: IntParser)
    ensures ZoneValueOf(row, shapes, m, srid, parseInt).Ok? <==>
      row != [] && CellInt(row[0], parseInt).Ok? && Int(CellInt(row[0], parseInt).value) in shapes
    ensures row != [] && CellInt(row[0], parseInt).Ok? && Int(CellInt(row[0], parseInt).value) !in shapes ==>
      ZoneValueOf(row, shapes, m, srid, parseInt) == Err(MissingShape)
    ensures ZoneValueOf(row, shapes, m, srid, parseInt).Ok? ==>
      var v := ZoneValueOf(row, shapes, m, srid, parseInt).value;
      v.id == CellInt(row[0], parseInt).value && v.modelsId == m && v.data == row[1..] &&
      v.area == Area(shapes[Int(v.id)], srid)
  {
  }

  /** The zone rows the store makes of the values, None when a data cell is neither a number
      nor a text the database casts. */
  function ZoneRows(vs: seq<ZoneValue>, cast: Cast): (r: Option<seq<ZoneRow>>)
    ensures r.Some? <==> forall k :: 0 <= k < |vs| ==> Numbers(vs[k].data, cast).Some?
    ensures r.Some? ==> |r.value| == |vs| && forall k :: 0 <= k < |vs| ==>
      r.value[k] == ZoneRow(vs[k].id, vs[k].modelsId, vs[k].area, Numbers(vs[k].data, cast).value)
  {
    if vs == [] then Some([])
    else if Numbers(vs[0].data, cast).None? || ZoneRows(vs[1..], cast).None? then None
    else Some([ZoneRow(vs[0].id, vs[0].modelsId, vs[0].area, Numbers(vs[0].data, cast).value)] + ZoneRows(vs[1..], cast).value)
  }

  /** db_import_zones' loop over the data rows of zones.csv. */
  method ReadZoneValues(rows: seq<seq<Cell>>, shapes: map<Value, Polygon>, m: int, srid: int, parseInt: IntParser)
    returns (r: Result<seq<ZoneValue>>)
    ensures r == ZoneValues(rows, shapes, m, srid, parseInt)
  {
    var values: seq<ZoneValue> := [];
    var k := 0;
    while k < |rows|
      invariant 0 <= k <= |rows|
      invariant ZoneValues(rows[..k], shapes, m, srid, parseInt) == Ok(values)
    {
      assert rows[..k + 1][..k] == rows[..k];
      var row := rows[k];
      if row == [] {
        return Err(ShortRow);
      }
      var zonesId := CellInt(row[0], parseInt);
      if zonesId.Err? {
        return Err(zonesId.error);
      }
      var data := row[1..];
      if Int(zonesId.value) !in shapes {
        return Err(MissingShape);
      }
      var area := Area(shapes[Int(zonesId.value)], srid);
      values := values + [ZoneValue(m, zonesId.value, area, data)];
      k := k + 1;
    }
    assert rows[..k] == rows;
    return Ok(values);
  }

  /** A rent adjustment before the store types it. */
  datatype RentValue = RentValue(typesId: int, zonesId: int, modelsId: Option<int>, adjustment: Cell)

  /** One rent_adjustments.csv row: types_id = int(row[0]), zones_id = int(row[1]), the
      importer's model id, and row[2], each read in that order. */
  function RentValueOf(row: seq<Cell>, m: Option<int>, parseInt: IntParser): (r: Result<RentValue>)
    ensures r.Ok? <==> |row| >= 3 && CellInt(row[0], parseInt).Ok? && CellInt(row[1], parseInt).Ok?
    ensures r.Ok? ==> r.value == RentValue(CellInt(row[0], parseInt).value, CellInt(row[1], parseInt).value, m, row[2])
    ensures r.Err? ==> r.error == ShortRow || r.error == NotAnInteger
    ensures r == Err(ShortRow) <==> row == [] || (|row| < 3 && CellInt(row[0], parseInt).Ok? &&
                                                 (|row| == 1 || CellInt(row[1], parseInt).Ok?))
  {
    if row == [] then Err(ShortRow)
    else match CellInt(row[0], parseInt)
      case Err(e) => Err(e)
      case Ok(t) =>
        if |row| < 2 then Err(ShortRow)
        else match CellInt(row[1], parseInt)
          case Err(e) => Err(e)
          case Ok(z) => if |row| < 3 then Err(ShortRow) else Ok(RentValue(t, z, m, row[2]))
  }

  function RentValueFn(m: Option<int>, parseInt: IntParser): seq<Cell> -> Result<RentValue> {
    row => RentValueOf(row, m, parseInt)
  }

  function RentValues(rows: seq<seq<Cell>>, m: Option<int>, parseInt: IntParser): Result<seq<RentValue>> {
    MapAll(rows, RentValueFn(m, parseInt))
  }

  /** The rent adjustment rows the store makes of the values: it refuses a missing model id
      (a null key column) and an adjustment that is neither a number nor a text it casts. */
  function RentRows(vs: seq<RentValue>, cast: Cast): (r: Option<seq<RentAdjustmentRow>>)
    ensures r.Some? <==> forall k :: 0 <= k < |vs| ==> vs[k].modelsId.Some? && CellNum(vs[k].adjustment, cast).Some?
    ensures r.Some? ==> |r.value| == |vs| && forall k :: 0 <= k < |vs| ==>
      r.value[k] == RentAdjustmentRow(vs[k].typesId, vs[k].zonesId, vs[k].modelsId.value, CellNum(vs[k].adjustment, cast).value)
  {
    if vs == [] then Some([])
    else if vs[0].modelsId.None? || CellNum(vs[0].adjustment, cast).None? || RentRows(vs[1..], cast).None? then None
    else Some([RentAdjustmentRow(vs[0].typesId, vs[0].zonesId, vs[0].modelsId.value, CellNum(vs[0].adjustment, cast).value)] + RentRows(vs[1..], cast).value)
  }

  /** Whether the model has a row. */
  predicate HasModel(models: seq<ModelRow>, m: int) {
    exists r :: r in models && r.id == m
  }

  /** Whether the model has the zone. */
  predicate HasZone(zones: seq<ZoneRow>, z: int, m: int) {
    exists r :: r in zones && r.id == z && r.modelsId == m
  }

  /** What the store accepts in one zones insert: keys new and unique, models present. */
  predicate ZonesAccepted(existing: seq<ZoneRow>, models: seq<ModelRow>, rows: seq<ZoneRow>) {
    UniqueBy(existing + rows, ZoneKey) && forall k :: 0 <= k < |rows| ==> HasModel(models, rows[k].modelsId)
  }

  /** What the store accepts in one rent_adjustments insert: keys new and unique, each
      naming a zone of its model. */
  predicate RentAccepted(existing: seq<RentAdjustmentRow>, zones: seq<ZoneRow>, rows: seq<RentAdjustmentRow>) {
    UniqueBy(existing + rows, RentAdjustmentKey) && forall k :: 0 <= k < |rows| ==> HasZone(zones, rows[k].zonesId, rows[k].modelsId)
  }

  /** The part of the relational store the importer writes: the models, zones and
      rent_adjustments tables and the models_id_seq sequence. Each insert is one statement:
      it adds all of its rows or none. Text bound to a float column is cast as cast says. */
  class Store {
    const cast: Cast
    var models: seq<ModelRow>
    var zones: seq<ZoneRow>
    var rentAdjustments: seq<RentAdjustmentRow>
    var nextId: int

    /** The primary and foreign keys db.py declares, and a sequence ahead of every id. */
    ghost predicate Valid()
      reads this
    {
      && UniqueBy(models, ModelKey) && UniqueBy(zones, ZoneKey) && UniqueBy(rentAdjustments, RentAdjustmentKey)
      && nextId >= 1
      && (forall k :: 0 <= k < |models| ==> models[k].id < nextId)
      && (forall k :: 0 <= k < |zones| ==> HasModel(models, zones[k].modelsId))
      && (forall k :: 0 <= k < |rentAdjustments| ==> HasZone(zones, rentAdjustments[k].zonesId, rentAdjustments[k].modelsId))
    }

    constructor(cast: Cast)
      ensures Valid() && models == [] && zones == [] && rentAdjustments == [] && nextId == 1
      ensures this.cast == cast
    {
      this.cast := cast;
      models, zones, rentAdjustments, nextId := [], [], [], 1;
    }

    /** INSERT INTO models ... RETURNING id: the row takes the sequence's next value. */
    method InsertModel(name: string, h: Headers) returns (id: int)
      requires Valid()
      modifies this
      ensures Valid()
      ensures id == old(nextId) && id >= 1 && nextId == id + 1
      ensures models == old(models) + [ModelRow(id, name, h.zones, h.agents, h.agentsZones, h.realEstatesZones)]
      ensures zones == old(zones) && rentAdjustments == old(rentAdjustments)
    {
      ghost var before := models;
      id := nextId;
      models := models + [ModelRow(id, name, h.zones, h.agents, h.agentsZones, h.realEstatesZones)];
      nextId := nextId + 1;
      forall k | 0 <= k < |zones| ensures HasModel(models, zones[k].modelsId) {
        assert HasModel(before, zones[k].modelsId);
        var r :| r in before && r.id == zones[k].modelsId;
        assert r in models;
      }
    }

    method InsertZones(rows: seq<ZoneRow>) returns (ok: bool)
      requires Valid()
      modifies this
      ensures Valid()
      ensures ok == ZonesAccepted(old(zones), models, rows)
      ensures zones == if ok then old(zones) + rows else old(zones)
      ensures models == old(models) && rentAdjustments == old(rentAdjustments) && nextId == old(nextId)
    {
      ok := ZonesAccepted(zones, models, rows);
      if ok {
        ghost var before := zones;
        zones := zones + rows;
        forall k | 0 <= k < |zones| ensures HasModel(models, zones[k].modelsId) {
          if k >= |before| {
            assert zones[k] == rows[k - |before|];
          } else {
            assert zones[k] == before[k];
          }
        }
        forall k | 0 <= k < |rentAdjustments|
          ensures HasZone(zones, rentAdjustments[k].zonesId, rentAdjustments[k].modelsId)
        {
          assert HasZone(before, rentAdjustments[k].zonesId, rentAdjustments[k].modelsId);
          var r :| r in before && r.id == rentAdjustments[k].zonesId && r.modelsId == rentAdjustments[k].modelsId;
          assert r in zones;
        }
      }
    }

    method InsertRentAdjustments(rows: seq<RentAdjustmentRow>) returns (ok: bool)
      requires Valid()
      modifies this
      ensures Valid()
      ensures ok == RentAccepted(old(rentAdjustments), zones, rows)
      ensures rentAdjustments == if ok then old(rentAdjustments) + rows else old(rentAdjustments)
      ensures models == old(models) && zones == old(zones) && nextId == old(nextId)
    {
      ok := RentAccepted(rentAdjustments, zones, rows);
      if ok {
        ghost var before := rentAdjustments;
        rentAdjustments := rentAdjustments + rows;
        forall k | 0 <= k < |rentAdjustments|
          ensures HasZone(zones, rentAdjustments[k].zonesId, rentAdjustments[k].modelsId)
        {
          if k >= |before| {
            assert rentAdjustments[k] == rows[k - |before|];
          } else {
            assert rentAdjustments[k] == before[k];
          }
        }
      }
    }
  }

  /** What db_import_zones inserts, or why it stops before the insert: no model id (the
      assertion on models_id, which also refuses 0), a shapefile that is missing or fails to
      read, a missing or empty zones.csv, a failing row, or data the store cannot type. */
  function ZonesImport(inputs: Inputs, shp: string, csv: string, m: Option<int>, srid: int, parseInt: IntParser, cast: Cast): (r: Result<seq<ZoneRow>>)
    ensures r == Err(NoModelId) <==> m.None? || m.value == 0
  {
    if m.None? || m.value == 0 then Err(NoModelId)
    else if shp !in inputs.shapefiles then Err(FileNotFound)
    else match ZoneShapes(inputs.shapefiles[shp])
      case Err(e) => Err(e)
      case Ok(shapes) =>
        if csv !in inputs.csv then Err(FileNotFound)
        else match inputs.csv[csv]
          case Empty => Err(EmptyCsv)
          case Csv(_, rows) =>
            match ZoneValues(rows, shapes, m.value, srid, parseInt)
            case Err(e) => Err(e)
            case Ok(vs) => if ZoneRows(vs, cast).None? then Err(StoreRejected) else Ok(ZoneRows(vs, cast).value)
  }

  /** What db_import_rent_adjustments inserts, or why it stops before the insert. */
  function RentImport(inputs: Inputs, csv: string, m: Option<int>, parseInt: IntParser, cast: Cast): (r: Result<seq<RentAdjustmentRow>>)
    ensures r != Err(NoModelId)
  {
    if csv !in inputs.csv then Err(FileNotFound)
    else match inputs.csv[csv]
      case Empty => Err(EmptyCsv)
      case Csv(_, rows) =>
        match RentValues(rows, m, parseInt)
        case Err(e) => Err(e)
        case Ok(vs) => if RentRows(vs, cast).None? then Err(StoreRejected) else Ok(RentRows(vs, cast).value)
  }

  /** The importer of one model directory: the input paths derive from the model's name. */
  class ModelImporter {
    const name: string
    const srid: int
    const zonesCsv: string
    const agentsCsv: string
    const agentsZonesCsv: string
    const realEstatesZonesCsv: string
    const rentAdjustmentsCsv: string
    const shapefile: string
    const parseInt: IntParser
    var modelsId: Option<int>

    /** The corrected constructor keeps srid (the code as written drops it: README, Findings);
        srid defaults to 4326, as in the code. */
    constructor(name: string, parseInt: IntParser, srid: int := 4326)
      ensures this.name == name && this.srid == srid && this.parseInt == parseInt && modelsId == None
      ensures zonesCsv == name + "/zones.csv" && agentsCsv == name + "/agents.csv"
      ensures agentsZonesCsv == name + "/agents_zones.csv" && realEstatesZonesCsv == name + "/real_estates_zones.csv"
      ensures rentAdjustmentsCsv == name + "/rent_adjustments.csv" && shapefile == name + "/" + name + ".shp"
    {
      this.name := name;
      this.srid := srid;
      this.parseInt := parseInt;
      zonesCsv := name + "/zones.csv";
      agentsCsv := name + "/agents.csv";
      agentsZonesCsv := name + "/agents_zones.csv";
      realEstatesZonesCsv := name + "/real_estates_zones.csv";
      rentAdjustmentsCsv := name + "/rent_adjustments.csv";
      shapefile := name + "/" + name + ".shp";
      modelsId := None;
    }

    /** db_create_model: reads the four headers and inserts the model row under the
        importer's name, returning the new id; nothing is written when a header is missing. */
    method CreateModel(inputs: Inputs, store: Store) returns (r: Result<int>)
      requires store.Valid()
      modifies store
      ensures store.Valid()
      ensures var hs := ModelHeaders(inputs, zonesCsv, agentsCsv, agentsZonesCsv, realEstatesZonesCsv);
        && (r.Ok? <==> hs.Ok?)
        && (r.Err? ==> r.error == hs.error && store.models == old(store.models) && store.nextId == old(store.nextId))
        && (r.Ok? ==>
              && r.value == old(store.nextId) && r.value >= 1
              && store.models == old(store.models) + [ModelRow(r.value, name, hs.value.zones, hs.value.agents,
                                                               hs.value.agentsZones, hs.value.realEstatesZones)])
      ensures store.zones == old(store.zones) && store.rentAdjustments == old(store.rentAdjustments)
    {
      var zonesHeader := HeaderOf(inputs, zonesCsv, 1);
      if zonesHeader.Err? { return Err(zonesHeader.error); }
      var agentsHeader := HeaderOf(inputs, agentsCsv, 4);
      if agentsHeader.Err? { return Err(agentsHeader.error); }
      var agentsZonesHeader := HeaderOf(inputs, agentsZonesCsv, 4);
      if agentsZonesHeader.Err? { return Err(agentsZonesHeader.error); }
      var realEstatesZonesHeader := HeaderOf(inputs, realEstatesZonesCsv, 3);
      if realEstatesZonesHeader.Err? { return Err(realEstatesZonesHeader.error); }
      var id := store.InsertModel(name, Headers(zonesHeader.value, agentsHeader.value, agentsZonesHeader.value, realEstatesZonesHeader.value));
      return Ok(id);
    }

    /** db_import_zones: one insert of every zones.csv row, each with its shapefile polygon. */
    method ImportZones(inputs: Inputs, store: Store) returns (r: Result<()>)
      requires store.Valid()
      modifies store
      ensures store.Valid()
      ensures var z := ZonesImport(inputs, shapefile, zonesCsv, modelsId, srid, parseInt, store.cast);
        && (r.Ok? <==> z.Ok? && ZonesAccepted(old(store.zones), store.models, z.value))
        && (r.Ok? ==> store.zones == old(store.zones) + z.value)
        && (r.Err? ==> store.zones == old(store.zones) && r.error == if z.Err? then z.error else StoreRejected)
      ensures store.models == old(store.models) && store.rentAdjustments == old(store.rentAdjustments)
      ensures store.nextId == old(store.nextId)
    {
      if modelsId.None? || modelsId.value == 0 {
        return Err(NoModelId);
      }
      if shapefile !in inputs.shapefiles {
        return Err(FileNotFound);
      }
      var zoneShapes := GetZoneShapes(inputs.shapefiles[shapefile]);
      if zoneShapes.Err? {
        return Err(zoneShapes.error);
      }
      var shapes := zoneShapes.value;
      if zonesCsv !in inputs.csv || inputs.csv[zonesCsv].Empty? {
        return Err(if zonesCsv in inputs.csv then EmptyCsv else FileNotFound);
      }
      var values := ReadZoneValues(inputs.csv[zonesCsv].rows, shapes, modelsId.value, srid, parseInt);
      if values.Err? {
        return Err(values.error);
      }
      var typed := ZoneRows(values.value, store.cast);
      if typed.None? {
        return Err(StoreRejected);
      }
      var ok := store.InsertZones(typed.value);
      return if ok then Ok(()) else Err(StoreRejected);
    }

    /** db_import_rent_adjustments: one insert of every rent_adjustments.csv row. */
    method ImportRentAdjustments(inputs: Inputs, store: Store) returns (r: Result<()>)
      requires store.Valid()
      modifies store
      ensures store.Valid()
      ensures var a := RentImport(inputs, rentAdjustmentsCsv, modelsId, parseInt, store.cast);
        && (r.Ok? <==> a.Ok? && RentAccepted(old(store.rentAdjustments), store.zones, a.value))
        && (r.Ok? ==> store.rentAdjustments == old(store.rentAdjustments) + a.value)
        && (r.Err? ==> store.rentAdjustments == old(store.rentAdjustments) && r.error == if a.Err? then a.error else StoreRejected)
      ensures store.models == old(store.models) && store.zones == old(store.zones) && store.nextId == old(store.nextId)
    {
      if rentAdjustmentsCsv !in inputs.csv || inputs.csv[rentAdjustmentsCsv].Empty? {
        return Err(if rentAdjustmentsCsv in inputs.csv then EmptyCsv else FileNotFound);
      }
      var rows := inputs.csv[rentAdjustmentsCsv].rows;
      var values: seq<RentValue> := [];
      var k := 0;
      while k < |rows|
        invariant 0 <= k <= |rows|
        invariant RentValues(rows[..k], modelsId, parseInt) == Ok(values)
      {
        assert rows[..k + 1][..k] == rows[..k];
        var v := RentValueOf(rows[k], modelsId, parseInt);
        if v.Err? {
          return Err(v.error);
        }
        values := values + [v.value];
        k := k + 1;
      }
      assert rows[..k] == rows;
      var typed := RentRows(values, store.cast);
      if typed.None? {
        return Err(StoreRejected);
      }
      var ok := store.InsertRentAdjustments(typed.value);
      return if ok then Ok(()) else Err(StoreRejected);
    }

    /** import_model: create the model, then import its zones, then its rent adjustments.
        The steps are not one transaction: what an earlier step wrote stays when a later
        one fails. The assertion on the model id can no longer fail. */
    method ImportModel(inputs: Inputs, store: Store) returns (r: Result<()>)
      requires store.Valid()
      modifies this, store
      ensures store.Valid()
      ensures r != Err(NoModelId)
      ensures var hs := ModelHeaders(inputs, zonesCsv, agentsCsv, agentsZonesCsv, realEstatesZonesCsv);
        && (hs.Err? ==> r == Err(hs.error) && store.models == old(store.models) && modelsId == old(modelsId))
        && (hs.Ok? ==>
              && modelsId == Some(old(store.nextId))
              && store.models == old(store.models) + [ModelRow(old(store.nextId), name, hs.value.zones, hs.value.agents,
                                                               hs.value.agentsZones, hs.value.realEstatesZones)])
      ensures ModelHeaders(inputs, zonesCsv, agentsCsv, agentsZonesCsv, realEstatesZonesCsv).Err? ==>
                store.zones == old(store.zones) && store.nextId == old(store.nextId)
      ensures r.Err? ==> store.rentAdjustments == old(store.rentAdjustments)
      ensures var z := ZonesImport(inputs, shapefile, zonesCsv, modelsId, srid, parseInt, store.cast);
        store.zones == old(store.zones) || (z.Ok? && store.zones == old(store.zones) + z.value)
      ensures var z := ZonesImport(inputs, shapefile, zonesCsv, modelsId, srid, parseInt, store.cast);
              var a := RentImport(inputs, rentAdjustmentsCsv, modelsId, parseInt, store.cast);
        r.Ok? ==> z.Ok? && a.Ok? && store.zones == old(store.zones) + z.value &&
                  store.rentAdjustments == old(store.rentAdjustments) + a.value
    {
      var created := CreateModel(inputs, store);
      if created.Err? {
        return Err(created.error);
      }
      modelsId := Some(created.value);
      r := ImportZones(inputs, store);
      if r.Err? {
        return r;
      }
      r := ImportRentAdjustments(inputs, store);
    }
  }

  /** db_create_model as written: once the headers are read, the insert names the undefined
      model_name, so no model row is ever created and no id returned. */
  function CreateModelAsWritten(inputs: Inputs, zones: string, agents: string, agentsZones: string, realEstatesZones: string): (r: Result<int>)
    ensures r.Err?
    ensures ModelHeaders(inputs, zones, agents, agentsZones, realEstatesZones).Ok? ==> r.error == UndefinedName
    ensures ModelHeaders(inputs, zones, agents, agentsZones, realEstatesZones).Err? ==>
              r.error == ModelHeaders(inputs, zones, agents, agentsZones, realEstatesZones).error
  {
    match ModelHeaders(inputs, zones, agents, agentsZones, realEstatesZones)
    case Err(e) => Err(e)
    case Ok(_) => Err(UndefinedName)
  }

  /** One zones.csv row as written: after the shapefile lookup, self.srid is read, which the
      constructor never assigns; every row that the corrected import accepts fails here. */
  function ZoneValueAsWritten(row: seq<Cell>, shapes: map<Value, Polygon>, m: int, parseInt: IntParser): (r: Result<ZoneValue>)
    ensures r.Err?
    ensures forall srid :: ZoneValueOf(row, shapes, m, srid, parseInt).Ok? ==> r.error == MissingAttribute
    ensures forall srid :: ZoneValueOf(row, shapes, m, srid, parseInt).Err? ==> r == ZoneValueOf(row, shapes, m, srid, parseInt)
  {
    if row == [] then Err(ShortRow)
    else match CellInt(row[0], parseInt)
      case Err(e) => Err(e)
      case Ok(id) => if Int(id) !in shapes then Err(MissingShape) else Err(MissingAttribute)
  }

  /** The zones rows as written: only a zones.csv without data rows gets through. */
  function ZoneValuesAsWritten(rows: seq<seq<Cell>>, shapes: map<Value, Polygon>, m: int, parseInt: IntParser): (r: Result<seq<ZoneValue>>)
    ensures r.Ok? <==> rows == []
  {
    var r := MapAll(rows, (row: seq<Cell>) => ZoneValueAsWritten(row, shapes, m, parseInt));
    assert rows != [] ==> ZoneValueAsWritten(rows[0], shapes, m, parseInt).Err?;
    r
  }

  /** Row k of zones.csv imported as zone z: z's id is int(row[0]), its model is m, its area
      is the shapefile polygon of that id with the srid, and its data are the other cells as
      the store types them. */
  predicate ImportedRow(row: seq<Cell>, shapes: map<Value, Polygon>, m: int, srid: int, parseInt: IntParser, cast: Cast, z: ZoneRow) {
    && row != [] && CellInt(row[0], parseInt) == Ok(z.id) && z.modelsId == m
    && Int(z.id) in shapes && z.area == Area(shapes[Int(z.id)], srid)
    && Numbers(row[1..], cast) == Some(z.data)
  }

  /** What a successful zones import inserts: one zone per data row of zones.csv, in order,
      each built from its row and the shapefile. */
  lemma ZonesImportRows(inputs: Inputs, shp: string, csv: string, m: int, srid: int, parseInt: IntParser, cast: Cast, rs: seq<ZoneRow>)
    requires ZonesImport(inputs, shp, csv, Some(m), srid, parseInt, cast) == Ok(rs)
    ensures shp in inputs.shapefiles && ZoneShapes(inputs.shapefiles[shp]).Ok?
    ensures csv in inputs.csv && inputs.csv[csv].Csv? && |rs| == |inputs.csv[csv].rows|
    ensures forall k :: 0 <= k < |rs| ==>
      ImportedRow(inputs.csv[csv].rows[k], ZoneShapes(inputs.shapefiles[shp]).value, m, srid, parseInt, cast, rs[k])
  {
    var shapes := ZoneShapes(inputs.shapefiles[shp]).value;
    var rows := inputs.csv[csv].rows;
    var vs := ZoneValues(rows, shapes, m, srid, parseInt).value;
    assert rs == ZoneRows(vs, cast).value;
    forall k | 0 <= k < |rs| ensures ImportedRow(rows[k], shapes, m, srid, parseInt, cast, rs[k]) {
      ZoneValueSpec(rows[k], shapes, m, srid, parseInt);
      assert vs[k] == ZoneValueFn(shapes, m, srid, parseInt)(rows[k]).value;
    }
  }

  /** The import/resolution round trip: the zone a successful import makes of row k of
      zones.csv is what resolution gives a point its polygon contains, when no other zone of
      the model in the store contains that point. */
  lemma ImportedZoneResolves(inputs: Inputs, shp: string, csv: string, m: int, srid: int, parseInt: IntParser, cast: Cast,
                             rs: seq<ZoneRow>, existing: seq<ZoneRow>, contains: Contains, k: int, p: QueryPoint)
    requires ZonesImport(inputs, shp, csv, Some(m), srid, parseInt, cast) == Ok(rs)
    requires 0 <= k < |rs| && contains(rs[k].area, p.lng, p.lat)
    requires forall y :: y in existing + rs && y.modelsId == m && y != rs[k] ==> !contains(y.area, p.lng, p.lat)
    ensures LastContaining(existing + rs, contains, m, p) == Some(rs[k].id)
  {
    ZonesImportRows(inputs, shp, csv, m, srid, parseInt, cast, rs);
    var zones := existing + rs;
    assert zones[|existing| + k] == rs[k];
    LastContainingSpec(zones, contains, m, p);
    var j :| 0 <= j < |zones| && zones[j].modelsId == m && contains(zones[j].area, p.lng, p.lat) &&
             zones[j].id == LastContaining(zones, contains, m, p).value;
    assert zones[j] == rs[k];
  }
}

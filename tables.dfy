/** The relational store of mulandweb/db.py as in-memory tables: one row datatype per table,
    with the columns the engine and the importer use, and the primary keys db.py declares. */
module Tables {
  import opened Common

  /** A models row: identity and the four per-model dynamic headers. The last one is the
      column db.py leaves out although the engine selects it (README, Findings). */
  datatype ModelRow = ModelRow(
    id: int, name: string,
    zonesHeader: seq<string>, agentsHeader: seq<string>,
    agentsZonesHeader: seq<string>, realEstatesZonesHeader: seq<string>)

  datatype Point2 = Point2(x: Num, y: Num)

  type Ring = seq<Point2>

  /** A polygon given by its rings, not by well-known text: one exterior ring and the holes. */
  datatype Polygon = Polygon(exterior: Ring, interiors: seq<Ring>)

  /** A zone's stored area: the imported polygon, read in reference system srid and kept
      reprojected to the storage system 900913 (the reprojection itself is not modelled). */
  datatype Area = Area(shape: Polygon, srid: int)

  datatype ZoneRow = ZoneRow(id: int, modelsId: int, area: Area, data: seq<Num>)

  datatype AgentRow = AgentRow(
    id: int, modelsId: int, marketsId: int, aggraId: int, upperbb: Num, data: seq<Num>)

  datatype AgentZoneRow = AgentZoneRow(
    agentsId: int, zonesId: int, modelsId: int, acc: Num, att: Num, data: seq<Num>)

  datatype BidAdjustmentRow = BidAdjustmentRow(
    agentsId: int, typesId: int, zonesId: int, modelsId: int, bidadj: Num)

  /** db.py declares no bids_functions table; these are the columns the engine selects. */
  datatype BidFunctionRow = BidFunctionRow(
    modelsId: int, marketsId: int, aggraId: int, idattrib: int, lineapar: Num,
    cagentX: Num, crestX: Num, caccX: Num, czonesX: Num, expparX: Num,
    cagentY: Num, crestY: Num, caccY: Num, czonesY: Num, expparY: Num)

  datatype DemandRow = DemandRow(agentsId: int, modelsId: int, demand: Num)

  datatype CutoffRow = CutoffRow(
    agentsId: int, typesId: int, zonesId: int, modelsId: int, dcutoff: Num)

  datatype RealEstateZoneRow = RealEstateZoneRow(
    typesId: int, zonesId: int, marketsId: int, modelsId: int,
    header: seq<string>, data: seq<Num>)

  datatype RentAdjustmentRow = RentAdjustmentRow(
    typesId: int, zonesId: int, modelsId: int, adjustment: Num)

  /** db.py declares no rent_functions table; these are the columns the engine selects. */
  datatype RentFunctionRow = RentFunctionRow(
    modelsId: int, marketsId: int, idattrib: int, scalepar: Num, lineapar: Num,
    crestX: Num, czonesX: Num, expparX: Num, crestY: Num, czonesY: Num, expparY: Num)

  datatype SubsidyRow = SubsidyRow(
    agentsId: int, typesId: int, zonesId: int, modelsId: int, subsidies: Num)

  datatype SupplyRow = SupplyRow(typesId: int, zonesId: int, modelsId: int, nrest: Num)

  /** A snapshot of every table the engine reads (table order stands for storage order). */
  datatype Database = Database(
    models: seq<ModelRow>,
    zones: seq<ZoneRow>,
    agents: seq<AgentRow>,
    agentsZones: seq<AgentZoneRow>,
    bidsAdjustments: seq<BidAdjustmentRow>,
    bidsFunctions: seq<BidFunctionRow>,
    demand: seq<DemandRow>,
    demandExogenousCutoff: seq<CutoffRow>,
    realEstatesZones: seq<RealEstateZoneRow>,
    rentAdjustments: seq<RentAdjustmentRow>,
    rentFunctions: seq<RentFunctionRow>,
    subsidies: seq<SubsidyRow>,
    supply: seq<SupplyRow>)

  /** No two rows of the table agree on the key. */
  predicate UniqueBy<T, K(==)>(rows: seq<T>, key: T -> K) {
    forall i, j :: 0 <= i < |rows| && 0 <= j < |rows| && key(rows[i]) == key(rows[j]) ==> i == j
  }

  lemma UniqueByMembers<T, K>(rows: seq<T>, key: T -> K, a: T, b: T)
    requires UniqueBy(rows, key) && a in rows && b in rows && key(a) == key(b)
    ensures a == b
  {
    var i :| 0 <= i < |rows| && rows[i] == a;
    var j :| 0 <= j < |rows| && rows[j] == b;
  }

  lemma UniqueByNoDup<T, K>(rows: seq<T>, key: T -> K)
    requires UniqueBy(rows, key)
    ensures NoDup(rows)
  {
  }

  // The primary keys of db.py (zones and agents are keyed by id within a model).
  function ModelKey(r: ModelRow): int { r.id }
  function ZoneKey(r: ZoneRow): (int, int) { (r.id, r.modelsId) }
  function AgentKey(r: AgentRow): (int, int) { (r.id, r.modelsId) }
  function AgentZoneKey(r: AgentZoneRow): (int, int, int) { (r.agentsId, r.zonesId, r.modelsId) }
  function BidAdjustmentKey(r: BidAdjustmentRow): (int, int, int, int) {
    (r.agentsId, r.typesId, r.zonesId, r.modelsId)
  }
  function DemandKey(r: DemandRow): (int, int) { (r.agentsId, r.modelsId) }
  function CutoffKey(r: CutoffRow): (int, int, int, int) {
    (r.agentsId, r.typesId, r.zonesId, r.modelsId)
  }
  function RealEstateZoneKey(r: RealEstateZoneRow): (int, int, int, int) {
    (r.typesId, r.zonesId, r.marketsId, r.modelsId)
  }
  function RentAdjustmentKey(r: RentAdjustmentRow): (int, int, int) {
    (r.typesId, r.zonesId, r.modelsId)
  }
  function SubsidyKey(r: SubsidyRow): (int, int, int, int) {
    (r.agentsId, r.typesId, r.zonesId, r.modelsId)
  }
  function SupplyKey(r: SupplyRow): (int, int, int) { (r.typesId, r.zonesId, r.modelsId) }

  /** Every declared primary key holds. */
  predicate ValidDatabase(db: Database) {
    && UniqueBy(db.models, ModelKey)
    && UniqueBy(db.zones, ZoneKey)
    && UniqueBy(db.agents, AgentKey)
    && UniqueBy(db.agentsZones, AgentZoneKey)
    && UniqueBy(db.bidsAdjustments, BidAdjustmentKey)
    && UniqueBy(db.demand, DemandKey)
    && UniqueBy(db.demandExogenousCutoff, CutoffKey)
    && UniqueBy(db.realEstatesZones, RealEstateZoneKey)
    && UniqueBy(db.rentAdjustments, RentAdjustmentKey)
    && UniqueBy(db.subsidies, SubsidyKey)
    && UniqueBy(db.supply, SupplyKey)
  }

  /** The tables mulandweb/db.py declares. */
  const DeclaredTables: seq<string> := [
    "models", "real_estate_types", "markets", "rent_adjustments", "supply", "real_estates_zones",
    "agents", "zones", "demand", "subsidies", "demand_exogenous_cutoff", "agents_zones", "bids_adjustments"]

  /** The columns mulandweb/db.py declares for models. */
  const DeclaredModelsColumns: seq<string> := ["id", "name", "zones_header", "agents_header", "agents_zones_header"]

  /** The columns the headers query selects. */
  const HeaderColumns: seq<string> := ["zones_header", "agents_header", "agents_zones_header", "real_estates_zones_header"]

  /** Naming tables or columns through the schema objects: a name the schema does not
      declare is an AttributeError. */
  function SelectNames(declared: seq<string>, wanted: seq<string>): (r: Result<seq<string>>)
    ensures r.Ok? <==> forall k :: 0 <= k < |wanted| ==> wanted[k] in declared
    ensures r.Ok? ==> r.value == wanted
    ensures r.Err? ==> r.error == MissingAttribute
  {
    if forall k :: 0 <= k < |wanted| ==> wanted[k] in declared then Ok(wanted) else Err(MissingAttribute)
  }

  /** As db.py is written the headers query cannot be built, nor can the bids_functions and
      rent_functions queries; with the missing column and tables declared, as the models row
      and the database here have them, all three can. */
  lemma SchemaAsWritten()
    ensures SelectNames(DeclaredModelsColumns, HeaderColumns) == Err(MissingAttribute)
    ensures SelectNames(DeclaredModelsColumns + ["real_estates_zones_header"], HeaderColumns) == Ok(HeaderColumns)
    ensures SelectNames(DeclaredTables, ["bids_functions"]) == Err(MissingAttribute)
    ensures SelectNames(DeclaredTables, ["rent_functions"]) == Err(MissingAttribute)
    ensures SelectNames(DeclaredTables + ["bids_functions", "rent_functions"], ["bids_functions", "rent_functions"]).Ok?
  {
    assert HeaderColumns[3] !in DeclaredModelsColumns;
    assert ["bids_functions"][0] !in DeclaredTables;
    assert ["rent_functions"][0] !in DeclaredTables;
  }
}

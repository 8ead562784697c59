/** MulandDB's record getters and get() (mulandweb/mulanddb.py:54-505): the categories of
    the simulation input, each a header and the records of one query. */
module Engine {
  import opened Common
  import opened Request
  import opened Tables
  import opened Joins
  import opened Points
  import opened Zoning

  /** SQL's comparison of a point's requested type, rendered into the VALUES list, with an
      integer types_id column: the numbers must agree, whether the type is an int or a float. */
  predicate SameNumber(v: Value, n: int) {
    match v
    case Int(i) => i == n
    case Float(x) => x == n as real
  }

  // ---- the zone- and type-scoped joins -------------------------------------------------

  function BidAdjustmentMatch(m: int): (QueryPoint, BidAdjustmentRow) -> bool {
    (p: QueryPoint, f: BidAdjustmentRow) =>
      f.modelsId == m && p.zonesId == Some(f.zonesId) && SameNumber(p.typesId, f.typesId)
  }

  function BidAdjustmentRecord(p: QueryPoint, f: BidAdjustmentRow): seq<Value> {
    [Int(f.agentsId), Int(f.typesId), Int(p.id + 1), Float(f.bidadj)]
  }

  function BidsAdjustments(db: Database, m: int, ps: seq<QueryPoint>): seq<seq<Value>> {
    Join(ps, db.bidsAdjustments, BidAdjustmentMatch(m), BidAdjustmentRecord)
  }

  function CutoffMatch(m: int): (QueryPoint, CutoffRow) -> bool {
    (p: QueryPoint, f: CutoffRow) =>
      f.modelsId == m && p.zonesId == Some(f.zonesId) && SameNumber(p.typesId, f.typesId)
  }

  function CutoffRecord(p: QueryPoint, f: CutoffRow): seq<Value> {
    [Int(f.agentsId), Int(f.typesId), Int(p.id + 1), Float(f.dcutoff)]
  }

  function DemandExogenousCutoff(db: Database, m: int, ps: seq<QueryPoint>): seq<seq<Value>> {
    Join(ps, db.demandExogenousCutoff, CutoffMatch(m), CutoffRecord)
  }

  function RealEstateZoneMatch(m: int): (QueryPoint, RealEstateZoneRow) -> bool {
    (p: QueryPoint, f: RealEstateZoneRow) =>
      f.modelsId == m && p.zonesId == Some(f.zonesId) && SameNumber(p.typesId, f.typesId)
  }

  function RealEstateZoneRecord(p: QueryPoint, f: RealEstateZoneRow): seq<Value> {
    [Int(f.typesId), Int(p.id + 1), Int(f.marketsId)] + Floats(f.data)
  }

  function RealEstatesZones(db: Database, m: int, ps: seq<QueryPoint>): seq<seq<Value>> {
    Join(ps, db.realEstatesZones, RealEstateZoneMatch(m), RealEstateZoneRecord)
  }

  function RentAdjustmentMatch(m: int): (QueryPoint, RentAdjustmentRow) -> bool {
    (p: QueryPoint, f: RentAdjustmentRow) =>
      f.modelsId == m && p.zonesId == Some(f.zonesId) && SameNumber(p.typesId, f.typesId)
  }

  function RentAdjustmentRecord(p: QueryPoint, f: RentAdjustmentRow): seq<Value> {
    [Int(f.typesId), Int(p.id + 1), Float(f.adjustment)]
  }

  function RentAdjustments(db: Database, m: int, ps: seq<QueryPoint>): seq<seq<Value>> {
    Join(ps, db.rentAdjustments, RentAdjustmentMatch(m), RentAdjustmentRecord)
  }

  function SubsidyMatch(m: int): (QueryPoint, SubsidyRow) -> bool {
    (p: QueryPoint, f: SubsidyRow) =>
      f.modelsId == m && p.zonesId == Some(f.zonesId) && SameNumber(p.typesId, f.typesId)
  }

  function SubsidyRecord(p: QueryPoint, f: SubsidyRow): seq<Value> {
    [Int(f.agentsId), Int(f.typesId), Int(p.id + 1), Float(f.subsidies)]
  }

  function Subsidies(db: Database, m: int, ps: seq<QueryPoint>): seq<seq<Value>> {
    Join(ps, db.subsidies, SubsidyMatch(m), SubsidyRecord)
  }

  function SupplyMatch(m: int): (QueryPoint, SupplyRow) -> bool {
    (p: QueryPoint, f: SupplyRow) =>
      f.modelsId == m && p.zonesId == Some(f.zonesId) && SameNumber(p.typesId, f.typesId)
  }

  function SupplyRecord(p: QueryPoint, f: SupplyRow): seq<Value> {
    [Int(f.typesId), Int(p.id + 1), Float(f.nrest)]
  }

  function Supply(db: Database, m: int, ps: seq<QueryPoint>): seq<seq<Value>> {
    Join(ps, db.supply, SupplyMatch(m), SupplyRecord)
  }

  // ---- the zone-scoped join ------------------------------------------------------------

  /** agents_zones joins on the zone alone: the point's type plays no part. */
  function AgentZoneMatch(m: int): (QueryPoint, AgentZoneRow) -> bool {
    (p: QueryPoint, f: AgentZoneRow) => f.modelsId == m && p.zonesId == Some(f.zonesId)
  }

  function AgentZoneRecord(p: QueryPoint, f: AgentZoneRow): seq<Value> {
    [Int(f.agentsId), Int(p.id + 1), Float(f.acc), Float(f.att)] + Floats(f.data)
  }

  function AgentsZones(db: Database, m: int, ps: seq<QueryPoint>): seq<seq<Value>> {
    Join(ps, db.agentsZones, AgentZoneMatch(m), AgentZoneRecord)
  }

  // ---- the model-filtered selections ---------------------------------------------------

  function AgentOfModel(m: int): AgentRow -> bool { (a: AgentRow) => a.modelsId == m }

  function AgentRecord(a: AgentRow): seq<Value> {
    [Int(a.id), Int(a.marketsId), Int(a.aggraId), Float(a.upperbb)] + Floats(a.data)
  }

  function Agents(db: Database, m: int): seq<seq<Value>> {
    Map(Select(db.agents, AgentOfModel(m)), AgentRecord)
  }

  function BidFunctionOfModel(m: int): BidFunctionRow -> bool { (f: BidFunctionRow) => f.modelsId == m }

  function BidFunctionRecord(f: BidFunctionRow): seq<Value> {
    [Int(f.marketsId), Int(f.aggraId), Int(f.idattrib), Float(f.lineapar),
     Float(f.cagentX), Float(f.crestX), Float(f.caccX), Float(f.czonesX), Float(f.expparX),
     Float(f.cagentY), Float(f.crestY), Float(f.caccY), Float(f.czonesY), Float(f.expparY)]
  }

  function BidsFunctions(db: Database, m: int): seq<seq<Value>> {
    Map(Select(db.bidsFunctions, BidFunctionOfModel(m)), BidFunctionRecord)
  }

  function DemandOfModel(m: int): DemandRow -> bool { (f: DemandRow) => f.modelsId == m }

  function DemandRecord(f: DemandRow): seq<Value> { [Int(f.agentsId), Float(f.demand)] }

  function Demand(db: Database, m: int): seq<seq<Value>> {
    Map(Select(db.demand, DemandOfModel(m)), DemandRecord)
  }

  function RentFunctionOfModel(m: int): RentFunctionRow -> bool { (f: RentFunctionRow) => f.modelsId == m }

  function RentFunctionRecord(f: RentFunctionRow): seq<Value> {
    [Int(f.marketsId), Int(f.idattrib), Float(f.scalepar), Float(f.lineapar),
     Float(f.crestX), Float(f.czonesX), Float(f.expparX), Float(f.crestY), Float(f.czonesY), Float(f.expparY)]
  }

  function RentFunctions(db: Database, m: int): seq<seq<Value>> {
    Map(Select(db.rentFunctions, RentFunctionOfModel(m)), RentFunctionRecord)
  }

  // ---- what get() returns --------------------------------------------------------------

  /** A MulandData pair: column names and records. */
  datatype Table = Table(header: seq<string>, records: seq<seq<Value>>)

  datatype Category = Category(name: string, table: Table)

  const CategoryNames: seq<string> := [
    "zones", "agents", "agents_zones", "bids_adjustments", "bids_functions", "demand",
    "demand_exogenous_cutoff", "real_estates_zones", "rent_adjustments", "rent_functions",
    "subsidies", "supply"]

  const BidsFunctionsHeader: seq<string> := [
    "IDMARKET", "IDAGGRA", "IDATTRIB", "LINEAPAR", "CAGENT_X", "CREST_X", "CACC_X", "CZONES_X",
    "EXPPAR_X", "CAGENT_Y", "CREST_Y", "CACC_Y", "CZONES_Y", "EXPPAR_Y"]

  const RentFunctionsHeader: seq<string> := [
    "IDMARKET", "IDATTRIB", "SCALEPAR", "LINEAPAR", "CREST_X", "CZONES_X", "EXPPAR_X",
    "CREST_Y", "CZONES_Y", "EXPPAR_Y"]

  /** The header of category k: its fixed column names, then for zones, agents, agents_zones
      and real_estates_zones the model's dynamic header. */
  function Header(h: ModelRow, k: nat): seq<string>
    requires k < |CategoryNames|
  {
    match k
    case 0 => ["I_IDX"] + h.zonesHeader
    case 1 => ["IDAGENT", "IDMARKET", "IDAGGRA", "UPPERBB"] + h.agentsHeader
    case 2 => ["H_IDX", "I_IDX", "ACC", "P_LN_ATT"] + h.agentsZonesHeader
    case 3 => ["H_IDX", "V_IDX", "I_IDX", "BIDADJ"]
    case 4 => BidsFunctionsHeader
    case 5 => ["H_IDX", "DEMAND"]
    case 6 => ["H_IDX", "V_IDX", "I_IDX", "DCUTOFF"]
    case 7 => ["V_IDX", "I_IDX", "M_IDX"] + h.realEstatesZonesHeader
    case 8 => ["V_IDX", "I_IDX", "RENTADJ"]
    case 9 => RentFunctionsHeader
    case 10 => ["H_IDX", "V_IDX", "I_IDX", "SUBSIDIES"]
    case 11 => ["V_IDX", "I_IDX", "NREST"]
  }

  /** The records of category k for model m: zones from the zones query over ps, every other
      point join over rs, the points once annotated with their zones. */
  function Records(db: Database, contains: Contains, m: int, ps: seq<QueryPoint>, rs: seq<QueryPoint>, k: nat): seq<seq<Value>>
    requires k < |CategoryNames|
  {
    match k
    case 0 => ZonesRecords(db.zones, contains, m, ps)
    case 1 => Agents(db, m)
    case 2 => AgentsZones(db, m, rs)
    case 3 => BidsAdjustments(db, m, rs)
    case 4 => BidsFunctions(db, m)
    case 5 => Demand(db, m)
    case 6 => DemandExogenousCutoff(db, m, rs)
    case 7 => RealEstatesZones(db, m, rs)
    case 8 => RentAdjustments(db, m, rs)
    case 9 => RentFunctions(db, m)
    case 10 => Subsidies(db, m, rs)
    case 11 => Supply(db, m, rs)
  }

  /** The twelve categories get() returns for model m, given the points as the constructor
      left them, with the headers of the model's row. */
  function Assemble(db: Database, contains: Contains, m: int, ps: seq<QueryPoint>): (d: seq<Category>)
    requires ModelWithId(db.models, m).Some? && IdsArePositions(ps)
  {
    var h := ModelWithId(db.models, m).value;
    var rs := Resolve(db.zones, contains, m, ps);
    seq(|CategoryNames|, k requires 0 <= k < |CategoryNames| =>
      Category(CategoryNames[k], Table(Header(h, k), Records(db, contains, m, ps, rs, k))))
  }

  // ---- what each category holds --------------------------------------------------------

  /** bids_adjustments: one record per point and model-m fact agreeing on zone and type. */
  lemma BidsAdjustmentsMember(db: Database, m: int, ps: seq<QueryPoint>, rec: seq<Value>)
    ensures rec in BidsAdjustments(db, m, ps) <==>
      exists p, f :: p in ps && f in db.bidsAdjustments && f.modelsId == m &&
        p.zonesId == Some(f.zonesId) && SameNumber(p.typesId, f.typesId) &&
        rec == [Int(f.agentsId), Int(f.typesId), Int(p.id + 1), Float(f.bidadj)]
  {
    JoinMember(ps, db.bidsAdjustments, BidAdjustmentMatch(m), BidAdjustmentRecord, rec);
  }

  /** demand_exogenous_cutoff: one record per point and model-m fact agreeing on zone and type. */
  lemma DemandExogenousCutoffMember(db: Database, m: int, ps: seq<QueryPoint>, rec: seq<Value>)
    ensures rec in DemandExogenousCutoff(db, m, ps) <==>
      exists p, f :: p in ps && f in db.demandExogenousCutoff && f.modelsId == m &&
        p.zonesId == Some(f.zonesId) && SameNumber(p.typesId, f.typesId) &&
        rec == [Int(f.agentsId), Int(f.typesId), Int(p.id + 1), Float(f.dcutoff)]
  {
    JoinMember(ps, db.demandExogenousCutoff, CutoffMatch(m), CutoffRecord, rec);
  }

  /** real_estates_zones: type, point index and market, then the fact's data vector. */
  lemma RealEstatesZonesMember(db: Database, m: int, ps: seq<QueryPoint>, rec: seq<Value>)
    ensures rec in RealEstatesZones(db, m, ps) <==>
      exists p, f :: p in ps && f in db.realEstatesZones && f.modelsId == m &&
        p.zonesId == Some(f.zonesId) && SameNumber(p.typesId, f.typesId) &&
        rec == [Int(f.typesId), Int(p.id + 1), Int(f.marketsId)] + Floats(f.data)
  {
    JoinMember(ps, db.realEstatesZones, RealEstateZoneMatch(m), RealEstateZoneRecord, rec);
  }

  lemma RentAdjustmentsMember(db: Database, m: int, ps: seq<QueryPoint>, rec: seq<Value>)
    ensures rec in RentAdjustments(db, m, ps) <==>
      exists p, f :: p in ps && f in db.rentAdjustments && f.modelsId == m &&
        p.zonesId == Some(f.zonesId) && SameNumber(p.typesId, f.typesId) &&
        rec == [Int(f.typesId), Int(p.id + 1), Float(f.adjustment)]
  {
    JoinMember(ps, db.rentAdjustments, RentAdjustmentMatch(m), RentAdjustmentRecord, rec);
  }

  lemma SubsidiesMember(db: Database, m: int, ps: seq<QueryPoint>, rec: seq<Value>)
    ensures rec in Subsidies(db, m, ps) <==>
      exists p, f :: p in ps && f in db.subsidies && f.modelsId == m &&
        p.zonesId == Some(f.zonesId) && SameNumber(p.typesId, f.typesId) &&
        rec == [Int(f.agentsId), Int(f.typesId), Int(p.id + 1), Float(f.subsidies)]
  {
    JoinMember(ps, db.subsidies, SubsidyMatch(m), SubsidyRecord, rec);
  }

  lemma SupplyMember(db: Database, m: int, ps: seq<QueryPoint>, rec: seq<Value>)
    ensures rec in Supply(db, m, ps) <==>
      exists p, f :: p in ps && f in db.supply && f.modelsId == m &&
        p.zonesId == Some(f.zonesId) && SameNumber(p.typesId, f.typesId) &&
        rec == [Int(f.typesId), Int(p.id + 1), Float(f.nrest)]
  {
    JoinMember(ps, db.supply, SupplyMatch(m), SupplyRecord, rec);
  }

  /** agents_zones: one record per point and model-m fact in the point's zone, of any type. */
  lemma AgentsZonesMember(db: Database, m: int, ps: seq<QueryPoint>, rec: seq<Value>)
    ensures rec in AgentsZones(db, m, ps) <==>
      exists p, f :: p in ps && f in db.agentsZones && f.modelsId == m && p.zonesId == Some(f.zonesId) &&
        rec == [Int(f.agentsId), Int(p.id + 1), Float(f.acc), Float(f.att)] + Floats(f.data)
  {
    JoinMember(ps, db.agentsZones, AgentZoneMatch(m), AgentZoneRecord, rec);
  }

  /** Two points with the same id are the same point. */
  lemma SameIdSamePoint(ps: seq<QueryPoint>, p: QueryPoint, q: QueryPoint)
    requires DistinctIds(ps) && p in ps && q in ps && p.id == q.id
    ensures p == q
  {
    var i :| 0 <= i < |ps| && ps[i] == p;
    var j :| 0 <= j < |ps| && ps[j] == q;
  }

  /** With distinct point ids and the primary keys of db.py, no point join repeats a record:
      together with the membership lemmas, each matching (point, fact) pair appears exactly
      once, whatever order the database returns the rows in. */
  lemma JoinsNoDup(db: Database, m: int, ps: seq<QueryPoint>)
    requires ValidDatabase(db) && DistinctIds(ps)
    ensures NoDup(BidsAdjustments(db, m, ps))
    ensures NoDup(DemandExogenousCutoff(db, m, ps))
    ensures NoDup(RealEstatesZones(db, m, ps))
    ensures NoDup(RentAdjustments(db, m, ps))
    ensures NoDup(Subsidies(db, m, ps))
    ensures NoDup(Supply(db, m, ps))
    ensures NoDup(AgentsZones(db, m, ps))
  {
    assert NoDup(ps);
    UniqueByNoDup(db.bidsAdjustments, BidAdjustmentKey);
    UniqueByNoDup(db.demandExogenousCutoff, CutoffKey);
    UniqueByNoDup(db.realEstatesZones, RealEstateZoneKey);
    UniqueByNoDup(db.rentAdjustments, RentAdjustmentKey);
    UniqueByNoDup(db.subsidies, SubsidyKey);
    UniqueByNoDup(db.supply, SupplyKey);
    UniqueByNoDup(db.agentsZones, AgentZoneKey);
    forall p1, f1, p2, f2 |
      p1 in ps && f1 in db.bidsAdjustments && BidAdjustmentMatch(m)(p1, f1) &&
      p2 in ps && f2 in db.bidsAdjustments && BidAdjustmentMatch(m)(p2, f2) &&
      BidAdjustmentRecord(p1, f1) == BidAdjustmentRecord(p2, f2)
      ensures p1 == p2 && f1 == f2
    {
      assert BidAdjustmentRecord(p1, f1)[2] == BidAdjustmentRecord(p2, f2)[2];
      SameIdSamePoint(ps, p1, p2);
      UniqueByMembers(db.bidsAdjustments, BidAdjustmentKey, f1, f2);
    }
    JoinNoDup(ps, db.bidsAdjustments, BidAdjustmentMatch(m), BidAdjustmentRecord);
    forall p1, f1, p2, f2 |
      p1 in ps && f1 in db.demandExogenousCutoff && CutoffMatch(m)(p1, f1) &&
      p2 in ps && f2 in db.demandExogenousCutoff && CutoffMatch(m)(p2, f2) &&
      CutoffRecord(p1, f1) == CutoffRecord(p2, f2)
      ensures p1 == p2 && f1 == f2
    {
      assert CutoffRecord(p1, f1)[2] == CutoffRecord(p2, f2)[2];
      SameIdSamePoint(ps, p1, p2);
      UniqueByMembers(db.demandExogenousCutoff, CutoffKey, f1, f2);
    }
    JoinNoDup(ps, db.demandExogenousCutoff, CutoffMatch(m), CutoffRecord);
    forall p1, f1, p2, f2 |
      p1 in ps && f1 in db.realEstatesZones && RealEstateZoneMatch(m)(p1, f1) &&
      p2 in ps && f2 in db.realEstatesZones && RealEstateZoneMatch(m)(p2, f2) &&
      RealEstateZoneRecord(p1, f1) == RealEstateZoneRecord(p2, f2)
      ensures p1 == p2 && f1 == f2
    {
      var r1, r2 := RealEstateZoneRecord(p1, f1), RealEstateZoneRecord(p2, f2);
      assert r1[0] == r2[0] && r1[1] == r2[1] && r1[2] == r2[2];
      SameIdSamePoint(ps, p1, p2);
      UniqueByMembers(db.realEstatesZones, RealEstateZoneKey, f1, f2);
    }
    JoinNoDup(ps, db.realEstatesZones, RealEstateZoneMatch(m), RealEstateZoneRecord);
    forall p1, f1, p2, f2 |
      p1 in ps && f1 in db.rentAdjustments && RentAdjustmentMatch(m)(p1, f1) &&
      p2 in ps && f2 in db.rentAdjustments && RentAdjustmentMatch(m)(p2, f2) &&
      RentAdjustmentRecord(p1, f1) == RentAdjustmentRecord(p2, f2)
      ensures p1 == p2 && f1 == f2
    {
      assert RentAdjustmentRecord(p1, f1)[1] == RentAdjustmentRecord(p2, f2)[1];
      SameIdSamePoint(ps, p1, p2);
      UniqueByMembers(db.rentAdjustments, RentAdjustmentKey, f1, f2);
    }
    JoinNoDup(ps, db.rentAdjustments, RentAdjustmentMatch(m), RentAdjustmentRecord);
    forall p1, f1, p2, f2 |
      p1 in ps && f1 in db.subsidies && SubsidyMatch(m)(p1, f1) &&
      p2 in ps && f2 in db.subsidies && SubsidyMatch(m)(p2, f2) &&
      SubsidyRecord(p1, f1) == SubsidyRecord(p2, f2)
      ensures p1 == p2 && f1 == f2
    {
      assert SubsidyRecord(p1, f1)[2] == SubsidyRecord(p2, f2)[2];
      SameIdSamePoint(ps, p1, p2);
      UniqueByMembers(db.subsidies, SubsidyKey, f1, f2);
    }
    JoinNoDup(ps, db.subsidies, SubsidyMatch(m), SubsidyRecord);
    forall p1, f1, p2, f2 |
      p1 in ps && f1 in db.supply && SupplyMatch(m)(p1, f1) &&
      p2 in ps && f2 in db.supply && SupplyMatch(m)(p2, f2) &&
      SupplyRecord(p1, f1) == SupplyRecord(p2, f2)
      ensures p1 == p2 && f1 == f2
    {
      assert SupplyRecord(p1, f1)[1] == SupplyRecord(p2, f2)[1];
      SameIdSamePoint(ps, p1, p2);
      UniqueByMembers(db.supply, SupplyKey, f1, f2);
    }
    JoinNoDup(ps, db.supply, SupplyMatch(m), SupplyRecord);
    forall p1, f1, p2, f2 |
      p1 in ps && f1 in db.agentsZones && AgentZoneMatch(m)(p1, f1) &&
      p2 in ps && f2 in db.agentsZones && AgentZoneMatch(m)(p2, f2) &&
      AgentZoneRecord(p1, f1) == AgentZoneRecord(p2, f2)
      ensures p1 == p2 && f1 == f2
    {
      var r1, r2 := AgentZoneRecord(p1, f1), AgentZoneRecord(p2, f2);
      assert r1[0] == r2[0] && r1[1] == r2[1];
      SameIdSamePoint(ps, p1, p2);
      UniqueByMembers(db.agentsZones, AgentZoneKey, f1, f2);
    }
    JoinNoDup(ps, db.agentsZones, AgentZoneMatch(m), AgentZoneRecord);
  }

  /** agents returns exactly model m's rows: each record occurs as often as model-m rows
      with that identity, markets, aggregation, upper bound and data vector. */
  lemma AgentsExact(db: Database, m: int, rec: seq<Value>)
    ensures multiset(Agents(db, m))[rec] ==
      Count(db.agents, (a: AgentRow) =>
        a.modelsId == m && rec == [Int(a.id), Int(a.marketsId), Int(a.aggraId), Float(a.upperbb)] + Floats(a.data))
  {
    SelectExact(db.agents, AgentOfModel(m), AgentRecord, rec, (a: AgentRow) =>
      a.modelsId == m && rec == [Int(a.id), Int(a.marketsId), Int(a.aggraId), Float(a.upperbb)] + Floats(a.data));
  }

  /** bids_functions returns exactly model m's rows, the fourteen selected columns in order. */
  lemma BidsFunctionsExact(db: Database, m: int, rec: seq<Value>)
    ensures multiset(BidsFunctions(db, m))[rec] ==
      Count(db.bidsFunctions, (f: BidFunctionRow) =>
        f.modelsId == m &&
        rec == [Int(f.marketsId), Int(f.aggraId), Int(f.idattrib), Float(f.lineapar),
                Float(f.cagentX), Float(f.crestX), Float(f.caccX), Float(f.czonesX), Float(f.expparX),
                Float(f.cagentY), Float(f.crestY), Float(f.caccY), Float(f.czonesY), Float(f.expparY)])
  {
    SelectExact(db.bidsFunctions, BidFunctionOfModel(m), BidFunctionRecord, rec, (f: BidFunctionRow) =>
        f.modelsId == m &&
        rec == [Int(f.marketsId), Int(f.aggraId), Int(f.idattrib), Float(f.lineapar),
                Float(f.cagentX), Float(f.crestX), Float(f.caccX), Float(f.czonesX), Float(f.expparX),
                Float(f.cagentY), Float(f.crestY), Float(f.caccY), Float(f.czonesY), Float(f.expparY)]);
  }

  /** demand returns exactly model m's rows as (agent, demand) pairs. */
  lemma DemandExact(db: Database, m: int, rec: seq<Value>)
    ensures multiset(Demand(db, m))[rec] ==
      Count(db.demand, (f: DemandRow) => f.modelsId == m && rec == [Int(f.agentsId), Float(f.demand)])
  {
    SelectExact(db.demand, DemandOfModel(m), DemandRecord, rec,
      (f: DemandRow) => f.modelsId == m && rec == [Int(f.agentsId), Float(f.demand)]);
  }

  /** rent_functions returns exactly model m's rows, the ten selected columns in order. */
  lemma RentFunctionsExact(db: Database, m: int, rec: seq<Value>)
    ensures multiset(RentFunctions(db, m))[rec] ==
      Count(db.rentFunctions, (f: RentFunctionRow) =>
        f.modelsId == m &&
        rec == [Int(f.marketsId), Int(f.idattrib), Float(f.scalepar), Float(f.lineapar),
                Float(f.crestX), Float(f.czonesX), Float(f.expparX), Float(f.crestY), Float(f.czonesY), Float(f.expparY)])
  {
    SelectExact(db.rentFunctions, RentFunctionOfModel(m), RentFunctionRecord, rec, (f: RentFunctionRow) =>
        f.modelsId == m &&
        rec == [Int(f.marketsId), Int(f.idattrib), Float(f.scalepar), Float(f.lineapar),
                Float(f.crestX), Float(f.czonesX), Float(f.expparX), Float(f.crestY), Float(f.czonesY), Float(f.expparY)]);
  }

  // ---- properties of the assembled result ----------------------------------------------

  /** get() always yields the twelve categories in the same order, and their headers depend on
      nothing but the model's row: not on the points, the zones, or any fact table. */
  lemma AssembleSchema(db: Database, db': Database, contains: Contains, contains': Contains, m: int,
                       ps: seq<QueryPoint>, ps': seq<QueryPoint>)
    requires ModelWithId(db.models, m).Some? && IdsArePositions(ps) && IdsArePositions(ps')
    requires db'.models == db.models
    ensures |Assemble(db, contains, m, ps)| == |CategoryNames| == 12
    ensures forall k :: 0 <= k < 12 ==>
      Assemble(db, contains, m, ps)[k].name == CategoryNames[k] &&
      Assemble(db, contains, m, ps)[k].table.header == Assemble(db', contains', m, ps')[k].table.header
    ensures |Assemble(db, contains, m, ps)[4].table.header| == 14
    ensures |Assemble(db, contains, m, ps)[9].table.header| == 10
  {
    var h := ModelWithId(db.models, m).value;
    var d, d' := Assemble(db, contains, m, ps), Assemble(db', contains', m, ps');
    forall k | 0 <= k < 12
      ensures d[k].name == CategoryNames[k] && d[k].table.header == d'[k].table.header
    {
      assert d[k].table.header == Header(h, k) == d'[k].table.header;
    }
    assert d[4].table.header == BidsFunctionsHeader;
    assert d[9].table.header == RentFunctionsHeader;
  }

  /** Every data vector of model m has the length of the model's dynamic header. */
  predicate WidthsAgree(db: Database, m: int)
    requires ModelWithId(db.models, m).Some?
  {
    var h := ModelWithId(db.models, m).value;
    && (forall z :: z in db.zones && z.modelsId == m ==> |z.data| == |h.zonesHeader|)
    && (forall a :: a in db.agents && a.modelsId == m ==> |a.data| == |h.agentsHeader|)
    && (forall f :: f in db.agentsZones && f.modelsId == m ==> |f.data| == |h.agentsZonesHeader|)
    && (forall f :: f in db.realEstatesZones && f.modelsId == m ==> |f.data| == |h.realEstatesZonesHeader|)
  }

  /** Every record has the length of its category's header: always for the eight categories
      without a data vector (bids_functions' fourteen columns, rent_functions' ten, ...), and
      for zones, agents, agents_zones and real_estates_zones when the widths agree. */
  lemma AssembleWidths(db: Database, contains: Contains, m: int, ps: seq<QueryPoint>, k: nat, rec: seq<Value>)
    requires ModelWithId(db.models, m).Some? && IdsArePositions(ps) && WidthsAgree(db, m)
    requires k < |Assemble(db, contains, m, ps)| && rec in Assemble(db, contains, m, ps)[k].table.records
    ensures |rec| == |Assemble(db, contains, m, ps)[k].table.header|
  {
    var rs := Resolve(db.zones, contains, m, ps);
    assert rec in Records(db, contains, m, ps, rs, k);
    if k == 0 {
      JoinMember(ps, db.zones, ZoneMatch(contains, m), ZoneRecord, rec);
    } else if k == 1 {
      var j :| 0 <= j < |Agents(db, m)| && Agents(db, m)[j] == rec;
      SelectMember(db.agents, AgentOfModel(m), Select(db.agents, AgentOfModel(m))[j]);
    } else if k == 2 {
      AgentsZonesMember(db, m, rs, rec);
    } else if k == 4 {
      var j :| 0 <= j < |BidsFunctions(db, m)| && BidsFunctions(db, m)[j] == rec;
    } else if k == 5 {
      var j :| 0 <= j < |Demand(db, m)| && Demand(db, m)[j] == rec;
    } else if k == 7 {
      RealEstatesZonesMember(db, m, rs, rec);
    } else if k == 9 {
      var j :| 0 <= j < |RentFunctions(db, m)| && RentFunctions(db, m)[j] == rec;
    } else if k == 3 {
      BidsAdjustmentsMember(db, m, rs, rec);
    } else if k == 6 {
      DemandExogenousCutoffMember(db, m, rs, rec);
    } else if k == 8 {
      RentAdjustmentsMember(db, m, rs, rec);
    } else if k == 10 {
      SubsidiesMember(db, m, rs, rec);
    } else {
      SupplyMember(db, m, rs, rec);
    }
  }

  /** The column of category k's records that holds the 1-based point index, for the
      categories indexed by point. */
  function IndexColumn(k: nat): Option<nat> {
    match k
    case 0 => Some(0)
    case 2 => Some(1)
    case 3 => Some(2)
    case 6 => Some(2)
    case 7 => Some(1)
    case 8 => Some(1)
    case 10 => Some(2)
    case 11 => Some(1)
    case _ => None
  }

  /** A point that no zone of model m contains, and that carries no zone yet, contributes no
      record to any category indexed by point: none of them names its index. */
  lemma UnresolvedOmitted(db: Database, contains: Contains, m: int, ps: seq<QueryPoint>, i: nat, k: nat, rec: seq<Value>)
    requires ModelWithId(db.models, m).Some? && IdsArePositions(ps) && i < |ps|
    requires ps[i].zonesId.None? && LastContaining(db.zones, contains, m, ps[i]).None?
    requires k < |CategoryNames| && IndexColumn(k).Some?
    requires rec in Assemble(db, contains, m, ps)[k].table.records
    ensures |rec| > IndexColumn(k).value && rec[IndexColumn(k).value] != Int(i + 1)
  {
    var rs := Resolve(db.zones, contains, m, ps);
    assert rec in Records(db, contains, m, ps, rs, k);
    if k == 0 {
      LastContainingSpec(db.zones, contains, m, ps[i]);
      JoinMember(ps, db.zones, ZoneMatch(contains, m), ZoneRecord, rec);
      var p, z :| p in ps && z in db.zones && ZoneMatch(contains, m)(p, z) && rec == ZoneRecord(p, z);
      var a :| 0 <= a < |ps| && ps[a] == p;
      var b :| 0 <= b < |db.zones| && db.zones[b] == z;
    } else {
      ResolveAt(db.zones, contains, m, ps, i);
      ResolveIdempotent(db.zones, contains, m, ps);
      // A point of rs with id i is rs[i], which is ps[i] and has no zone.
      assert forall p :: p in rs && p.id == i ==> p.zonesId.None? by {
        forall p | p in rs && p.id == i ensures p.zonesId.None? {
          var a :| 0 <= a < |rs| && rs[a] == p;
        }
      }
      if k == 2 {
        AgentsZonesMember(db, m, rs, rec);
      } else if k == 3 {
        BidsAdjustmentsMember(db, m, rs, rec);
      } else if k == 6 {
        DemandExogenousCutoffMember(db, m, rs, rec);
      } else if k == 7 {
        RealEstatesZonesMember(db, m, rs, rec);
      } else if k == 8 {
        RentAdjustmentsMember(db, m, rs, rec);
      } else if k == 10 {
        SubsidiesMember(db, m, rs, rec);
      } else {
        SupplyMember(db, m, rs, rec);
      }
    }
  }

  /** Calling get() again on the points it left behind returns the same categories. */
  lemma AssembleIdempotent(db: Database, contains: Contains, m: int, ps: seq<QueryPoint>)
    requires ModelWithId(db.models, m).Some? && IdsArePositions(ps)
    ensures IdsArePositions(Resolve(db.zones, contains, m, ps))
    ensures Assemble(db, contains, m, Resolve(db.zones, contains, m, ps)) == Assemble(db, contains, m, ps)
  {
    ResolveIdempotent(db.zones, contains, m, ps);
    ZonesRecordsResolved(db.zones, contains, m, ps);
  }

  /** One point's tuple of a VALUES list as written: its zones_id is read even when zone
      resolution gave it none. */
  function PointValue(p: QueryPoint): Result<(int, int, Value)> {
    if p.zonesId.None? then Err(UnresolvedZone) else Ok((p.id + 1, p.zonesId.value, p.typesId))
  }

  /** The (idx, zones_id, types_id) VALUES list the six zone-and-type joins build as
      written: one unresolved point raises KeyError and stops the whole response, rather than
      being left out of the joins. */
  function PointValuesAsWritten(ps: seq<QueryPoint>): (r: Result<seq<(int, int, Value)>>)
    ensures r.Err? <==> exists k :: 0 <= k < |ps| && ps[k].zonesId.None?
    ensures r.Err? ==> r.error == UnresolvedZone
    ensures r.Ok? ==> |r.value| == |ps|
    ensures r.Ok? ==> forall k :: 0 <= k < |ps| ==> r.value[k] == (ps[k].id + 1, ps[k].zonesId.value, ps[k].typesId)
  {
    MapAll(ps, PointValue)
  }

  /** One point's pair of the agents_zones VALUES list as written. */
  function PointPair(p: QueryPoint): Result<(int, int)> {
    if p.zonesId.None? then Err(UnresolvedZone) else Ok((p.id + 1, p.zonesId.value))
  }

  /** The (idx, zones_id) VALUES list of the agents_zones join as written, the first list
      get() builds: it raises KeyError exactly when some point is unresolved. */
  function PointPairsAsWritten(ps: seq<QueryPoint>): (r: Result<seq<(int, int)>>)
    ensures r.Err? <==> exists k :: 0 <= k < |ps| && ps[k].zonesId.None?
    ensures r.Err? ==> r.error == UnresolvedZone
    ensures r.Ok? ==> |r.value| == |ps|
    ensures r.Ok? ==> forall k :: 0 <= k < |ps| ==> r.value[k] == (ps[k].id + 1, ps[k].zonesId.value)
  {
    MapAll(ps, PointPair)
  }
}

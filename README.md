# Alpaca (mulandweb) in Dafny

This is a model of the data layer of the mulandweb service, which feeds the MULAND land-use simulation.

A request is an XML tree of locations. Each location has a longitude/latitude and a list of real-estate units to place there. The parser (`XmlParser`) turns that tree into location dictionaries. The retrieval engine (`Points`, `Zoning`, `Engine`, `Muland`) then turns those dictionaries into twelve named input tables for the simulation:

- it flattens the locations into indexed query points, one per unit;
- it resolves each point to the zones of the selected model whose polygons contain it;
- it joins the points against the model's fact tables, keyed on zone, zone and type, or model only.

The builder (`XmlParser.Build`) writes output tables back as an XML tree.

The import pipeline (`Shapes`, `Importer`) is the other half. It creates a model from the header rows of its CSV files. It cuts each shapefile polygon into an exterior ring and holes, then loads the zones and rent adjustments.

The database is a snapshot of in-memory tables (`Tables.Database`), one row datatype per table of `mulandweb/db.py`. Rows are kept in table order, and unordered queries are computed against that order. Spatial containment, including the reprojection from 4326 to 900913 before `ST_Contains`, is a function parameter `contains(area, lng, lat)`. Python's `float()` and `int()` of strings are parameters too, returning `None` where Python raises `ValueError`. So is `str()` of an output value.

Modules:

- `Common`: values, errors, Python slicing and small sequence facts.
- `Request`: the location dictionaries the parser hands to the engine.
- `Tables`: rows, keys and the declared schema.
- `Joins`: a generic point-major equi-join and its lemmas.
- `Points`: the constructor's model lookup and flattening.
- `Zoning`: the zones query and the zone annotation.
- `Engine`: every other category, and the response as a whole.
- `Muland`: the `MulandDB` class.
- `XmlParser`, `Shapes`, `Importer`.

Behaviours worth stating:

- The constructor looks the model up before it flattens the locations, so a malformed location is only reported for a model that exists (`mulandweb/mulanddb.py:30-48`). `Points.OpenError` keeps that order.
- The zones query returns one record for every containing zone of the model, not one per point. The annotation then keeps the last pair for each point in query order (`mulandweb/mulanddb.py:63-64`, 200-207). `Zoning.LastContaining` makes that tie policy explicit: the last containing zone in table order wins.
- The parser drops a location or unit whose attributes do not parse, but an override element without text makes `float(None)` raise TypeError, which nothing catches (`mulandweb/xmlparser.py:99-105`). The parser model keeps it as the error `MissingText`.

## Model

| member | source | states |
|---|---|---|
| Points.FlattenLocations | mulandweb/mulanddb.py:37-48 | The constructor's nested loop succeeds exactly when every location has a [lng, lat] pair and a unit list, and every unit a 'type'. It then returns the flattened point list; otherwise it returns MalformedLocation. |
| Points.FlattenSpec | mulandweb/mulanddb.py:37-48 | Flattening yields one point per unit over all locations, and point ids are the positions 0..n-1. |
| Points.FlattenAt | mulandweb/mulanddb.py:39-47 | Unit u of location l becomes the point at (units before l) + u. It carries that location's lng and lat, the unit's type, and no zone. |
| Points.UnitCountPrefix | mulandweb/mulanddb.py:39-47 | The units before location l, plus l's own, never exceed the total, so location-then-unit order numbers the points consecutively. |
| Points.OpenError | mulandweb/mulanddb.py:30-48 | Corrected constructor outcome. ModelNotFound exactly when no models row has the name. MalformedLocation exactly when one has it but the locations are malformed. Otherwise the name's model and its headers row exist. |
| Points.OpenErrorAsWritten | mulandweb/mulanddb.py:30-50 | The constructor as written never raises ModelNotFound. For a name no row has and well-formed locations, it fails subscripting None at line 50. |
| Muland.MulandDB.constructor | mulandweb/mulanddb.py:24-52 | Builds a session holding the database, model id, locations and points it is given. |
| Muland.MulandDB.Open | mulandweb/mulanddb.py:24-52 | Fails with the corrected constructor's error when there is one. Otherwise returns a fresh session for the named model whose points are the flattened locations. |
| Zoning.GetZones | mulandweb/mulanddb.py:157-212 | The zones loop returns the zone map and the zones records of the zones query over the points. |
| Zoning.ZoneMapMember | mulandweb/mulanddb.py:186-207 | A (point index, zone id) pair is in the zone map exactly when it comes from a point and a zone of the current model that contains the point. |
| Zoning.ZoneMapNoDup | mulandweb/mulanddb.py:186-207 | With zone keys unique and ids as positions, no pair occurs twice. |
| Zoning.ZonesAligned | mulandweb/mulanddb.py:200-207 | Records and zone map have equal length. Record k is [index + 1] followed by the data vector of the zone paired at k, verbatim. |
| Zoning.ZonesOrdered | mulandweb/mulanddb.py:197 | The zone map is ordered by point index (ORDER BY points.idx). |
| Zoning.ZoneMapBounds | mulandweb/mulanddb.py:63-64 | Every index in the zone map names an existing point. |
| Zoning.Annotated | mulandweb/mulanddb.py:63-64 | Writing the zone map back keeps the number of points. |
| Zoning.LastEntryForSpec | mulandweb/mulanddb.py:63-64 | The entry for point k is absent exactly when no pair names k. Otherwise it is the zone of the last pair naming k. |
| Zoning.AnnotatedAt | mulandweb/mulanddb.py:63-64 | After the write-back, point k has the zone of the last pair naming it. A point no pair names is unchanged. |
| Zoning.LastContainingSpec | mulandweb/mulanddb.py:186-207 | Resolution gives no zone exactly when no zone of the model contains the point. Otherwise it gives a containing zone of the model with no later one in table order (the tie policy). |
| Zoning.LastEntryConcat | mulandweb/mulanddb.py:63-64 | Over a concatenated zone map, the later part's entry for a point wins. |
| Zoning.LastEntryPartners | mulandweb/mulanddb.py:186-207 | One point's share of the zone map gives it its last containing zone. |
| Zoning.LastEntryPairs | mulandweb/mulanddb.py:63-64 | With distinct ids, the whole zone map gives each point its own last containing zone, and nothing to absent ids. |
| Zoning.ResolveAt | mulandweb/mulanddb.py:63-64 | Resolving keeps each point's id, coordinates and type, and sets its zone to the last containing zone, when there is one. |
| Zoning.ResolveIdempotent | mulandweb/mulanddb.py:63-64 | Resolving twice is resolving once. |
| Zoning.LastContainingSees | mulandweb/mulanddb.py:179-182 | Resolution depends on a point's coordinates only. |
| Zoning.ZonesRecordsResolved | mulandweb/mulanddb.py:179-207 | The zones records are the same before and after the write-back. |
| Joins.JoinMember | mulandweb/mulanddb.py:270-295 | A record is in a join exactly when some point and some fact match and build it. |
| Joins.JoinNoDup | mulandweb/mulanddb.py:270-295 | When the record determines its pair, no record occurs twice. |
| Joins.JoinExact | mulandweb/mulanddb.py:270-295 | As a multiset, the join holds each matching pair's record exactly once, whatever order the query returns. |
| Joins.PairsGrouped | mulandweb/mulanddb.py:197 | The pairs are grouped by point in point order. |
| Joins.SelectExact | mulandweb/mulanddb.py:214-234 | A model-filtered query holds each record as often as there are rows of the model that build it. |
| Joins.JoinCongruent | mulandweb/mulanddb.py:63-64 | Points that match the same facts give the same join. |
| Engine.BidsAdjustmentsMember | mulandweb/mulanddb.py:270-295 | bids_adjustments holds [agents_id, types_id, point id + 1, bidadj] exactly for the point/fact pairs of the current model with equal zone and type. |
| Engine.DemandExogenousCutoffMember | mulandweb/mulanddb.py:344-371 | demand_exogenous_cutoff holds [agents_id, types_id, point id + 1, dcutoff] exactly for the pairs of the model with equal zone and type. |
| Engine.RealEstatesZonesMember | mulandweb/mulanddb.py:373-403 | real_estates_zones holds [types_id, point id + 1, markets_id] followed by data, exactly for the pairs of the model with equal zone and type. |
| Engine.RentAdjustmentsMember | mulandweb/mulanddb.py:405-429 | rent_adjustments holds [types_id, point id + 1, adjustment] exactly for the pairs of the model with equal zone and type. |
| Engine.SubsidiesMember | mulandweb/mulanddb.py:457-482 | subsidies holds [agents_id, types_id, point id + 1, subsidies] exactly for the pairs of the model with equal zone and type. |
| Engine.SupplyMember | mulandweb/mulanddb.py:484-505 | supply holds [types_id, point id + 1, nrest] exactly for the pairs of the model with equal zone and type. |
| Engine.AgentsZonesMember | mulandweb/mulanddb.py:239-268 | agents_zones holds [agents_id, point id + 1, acc, att] followed by data, exactly for the pairs of the model with equal zone. Type plays no part. |
| Engine.JoinsNoDup | mulandweb/db.py:31-119 | Under the declared primary keys, and with distinct point ids, none of the seven point joins repeats a record. |
| Engine.AgentsExact | mulandweb/mulanddb.py:214-237 | agents holds [id, markets_id, aggra_id, upperbb] followed by data once per agent row of the model, and nothing else. |
| Engine.BidsFunctionsExact | mulandweb/mulanddb.py:297-324 | bids_functions holds the 14 selected columns once per row of the model, and nothing else. |
| Engine.DemandExact | mulandweb/mulanddb.py:326-342 | demand holds [agents_id, demand] once per row of the model, and nothing else. |
| Engine.RentFunctionsExact | mulandweb/mulanddb.py:431-455 | rent_functions holds the 10 selected columns once per row of the model, and nothing else. |
| Engine.AssembleSchema | mulandweb/mulanddb.py:54-135 | get() returns exactly the twelve categories in order. Their headers depend on the model row only. bids_functions' header has 14 names and rent_functions' has 10. |
| Engine.AssembleWidths | mulandweb/mulanddb.py:56-135 | When each data vector has its model's dynamic header length, every record of every category is as wide as that category's header. |
| Engine.UnresolvedOmitted | mulandweb/mulanddb.py:56-135 | A point that no zone of the model contains appears in no category's index column. |
| Engine.AssembleIdempotent | mulandweb/mulanddb.py:54-135 | Assembling from already-resolved points gives the same response. |
| Engine.PointPairsAsWritten | mulandweb/mulanddb.py:244-245 | The agents_zones VALUES list as written, the first one get() builds, fails with KeyError exactly when some point is unresolved. Otherwise it is (id + 1, zones_id) per point. |
| Engine.PointValuesAsWritten | mulandweb/mulanddb.py:274-277 | The VALUES list of the six zone-and-type joins as written (also lines 351, 379, 410, 462, 489) fails with KeyError exactly when some point is unresolved. Otherwise it is (id + 1, zones_id, types_id) per point. |
| Muland.MulandDB.GetAgentsRecords | mulandweb/mulanddb.py:214-237 | The agents loop returns the agents category. |
| Muland.MulandDB.GetAgentsZonesRecords | mulandweb/mulanddb.py:239-268 | The agents_zones loop returns the agents_zones join over the session's points. |
| Muland.MulandDB.GetRealEstatesZones | mulandweb/mulanddb.py:373-403 | The real_estates_zones loop returns its join over the session's points. |
| Muland.MulandDB.Collect | mulandweb/mulanddb.py:66-135 | With the points already annotated, building the categories gives the assembled response. |
| Muland.MulandDB.Get | mulandweb/mulanddb.py:54-135 | With no points it fails, and nothing changes. Otherwise it returns the assembled response for the constructor's points. Each point ends annotated with its last containing zone. |
| Tables.SchemaAsWritten | mulandweb/mulanddb.py:140-145 | With db.py as written, the headers query and the bids_functions and rent_functions queries cannot be built. With the column and tables declared, they can. |
| Shapes.ShapePolygonSpec | mulandweb/mulanddb.py:572-576 | There is one ring per part, and no parts is an error. The exterior is points[parts[0]:parts[1]], or points[parts[0]:] for one part, which then has no holes. Hole k is points[parts[k+1]:parts[k+2]], and the last one runs to the end. |
| Shapes.RingsPartition | mulandweb/mulanddb.py:572-576 | When the offsets start at 0 and never decrease, the rings laid end to end give back the point array. |
| Shapes.FieldValue | mulandweb/mulanddb.py:568-569 | dict(zip(fields, record))['ID'] is missing exactly when no position below both lengths is named 'ID'. Otherwise it is the value at the last such position. |
| Shapes.ShapesFromSpec | mulandweb/mulanddb.py:563-583 | Reading fails exactly when some record fails. Otherwise each id maps to the polygon of the last record carrying it, so later records overwrite. |
| Shapes.BuildPolygon | mulandweb/mulanddb.py:572-576 | The ring loop gives the record's polygon: the exterior, then one hole per later part. |
| Shapes.GetZoneShapes | mulandweb/mulanddb.py:558-583 | The shapefile loop returns the zone map of the records: the shape-type assertion, the 'ID' lookup and the ring split. |
| Importer.Trunc | mulandweb/mulanddb.py:596 | int() of a float truncates toward zero. |
| Importer.HeaderOf | mulandweb/mulanddb.py:527-541 | A dynamic header is the CSV's first row without its first n columns, in order. A missing file or a file without rows fails. |
| Importer.ModelHeaders | mulandweb/mulanddb.py:527-541 | The four headers are read zones first. They drop 1, 4, 4 and 3 leading columns, and the first failing file's error wins. |
| Importer.ZoneValueSpec | mulandweb/mulanddb.py:595-603 | A zones row becomes id = int(row[0]), its shapefile polygon with the srid, and data = row[1:]. An id the shapefile lacks is fatal. |
| Importer.ZoneValueOf | mulandweb/mulanddb.py:595-603 | A row fails only on a missing column, a non-integer id, or a missing shape. |
| Importer.ReadZoneValues | mulandweb/mulanddb.py:594-603 | The zones loop maps every row in order, or stops at the first failing row. |
| Importer.ZoneRows | mulandweb/mulanddb.py:598-606 | The store keeps number cells and casts text cells to numbers. It refuses the whole batch when some cell does not cast. |
| Importer.RentValueOf | mulandweb/mulanddb.py:614-616 | A rent adjustments row becomes (int(row[0]), int(row[1]), models_id, row[2]), read in that order. Short rows and non-integer ids fail where Python raises. |
| Importer.RentRows | mulandweb/mulanddb.py:614-617 | The adjustment is the number or the cast text of row[2]. The store refuses the batch when a model id is missing or an adjustment does not cast. |
| Importer.ZonesImport | mulandweb/mulanddb.py:585-606 | The import stops with NoModelId exactly when models_id is None or 0 (the assertion). |
| Importer.RentImport | mulandweb/mulanddb.py:608-618 | Importing rent adjustments never fails on the model id assertion; that check belongs to the zones import only. |
| Importer.Store.constructor | mulandweb/db.py:13-37 | An empty store satisfying its keys, with the sequence at 1 and the given cast. |
| Importer.Store.InsertModel | mulandweb/mulanddb.py:543-556 | Inserting a model appends the row under the sequence's next value, returns that id (at least 1), and keeps the keys. |
| Importer.Store.InsertZones | mulandweb/db.py:66-71 | One zones insert adds all its rows, or none when a key repeats or a model is missing. The keys hold after it. |
| Importer.Store.InsertRentAdjustments | mulandweb/db.py:31-37 | One rent_adjustments insert adds all its rows, or none when a key repeats or a zone is missing. The keys hold after it. |
| Importer.ModelImporter.constructor | mulandweb/mulanddb.py:508-516 | The input paths derive from the name, there is no model id yet, and the srid is kept, 4326 by default. |
| Importer.ModelImporter.CreateModel | mulandweb/mulanddb.py:524-556 | Reads the four headers. On a failure nothing is written; otherwise it inserts the model row under the importer's name and returns its new id. |
| Importer.ModelImporter.ImportZones | mulandweb/mulanddb.py:585-606 | Either all zones of zones.csv are added in one insert, or none are, and then the error says why. |
| Importer.ModelImporter.ImportRentAdjustments | mulandweb/mulanddb.py:608-618 | Either all rows of rent_adjustments.csv are added in one insert, or none are, and then the error says why. |
| Importer.ModelImporter.ImportModel | mulandweb/mulanddb.py:518-522 | Runs the three steps in order. The model id assertion cannot fail after a successful create. What an earlier step wrote stays when a later one fails. A failed create writes nothing; on any failure rent_adjustments is unchanged. On success both imports are in the store. |
| Importer.ZonesImportRows | mulandweb/mulanddb.py:585-606 | A successful zones import gives one zone per data row of zones.csv, in order. Zone k has id int(row[0]), the importer's model, the shapefile polygon of that id with the srid, and row[1:] as the store types it. |
| Importer.ImportedZoneResolves | mulandweb/mulanddb.py:585-606 | The zone imported from row k is what resolution gives a point its polygon contains, when no other zone of the model in the store contains it. |
| Importer.CreateModelAsWritten | mulandweb/mulanddb.py:543-546 | db_create_model as written never returns an id. Once the headers are read, it fails on the undefined model_name. |
| Importer.ZoneValueAsWritten | mulandweb/mulanddb.py:596-600 | As written, every row the corrected import accepts fails on self.srid. |
| Importer.ZoneValuesAsWritten | mulandweb/mulanddb.py:594-603 | As written, the zones import gets through only when zones.csv has no data rows. |
| XmlParser.ApplyOverridesSpec | mulandweb/xmlparser.py:92-97 | Overriding fails exactly when a child has no text. Otherwise each key holds its last parseable child's value, and other keys keep theirs. |
| XmlParser.UnitOfSpec | mulandweb/xmlparser.py:84-97 | A unit with a missing or non-integer 'type' is dropped and never fails. Otherwise it is {'type': t} plus the last parseable override per tag. |
| XmlParser.ParseUnit | mulandweb/xmlparser.py:84-97 | The unit loop returns the unit just described. |
| XmlParser.LocationDropped | mulandweb/xmlparser.py:61-70 | A location is dropped exactly when 'lng' or 'lat' is missing or does not parse. |
| XmlParser.LocationFoldUnits | mulandweb/xmlparser.py:74-77 | Without a 'units' override, the unit list is every parsed 'unit' child, in document order. |
| XmlParser.LocationFoldOverride | mulandweb/xmlparser.py:78-81 | Any key but 'units' and 'unit' holds the last parseable child of that tag, or its earlier value, 'lnglat' included. |
| XmlParser.LocationFoldAfterUnitsOverride | mulandweb/xmlparser.py:74-81 | Once 'units' holds a number, a location that parses has no later 'unit' child that parses, and 'units' ends with the last parseable override. If a later unit parses and nothing else fails, the location fails on the append. |
| XmlParser.LocationFoldUnitsOverride | mulandweb/xmlparser.py:74-81 | A parseable 'units' child replaces the unit list by a number: a location that parses then has no later 'unit' child that parses, and ends with 'units' as its last parseable override. A later unit that parses makes it fail with AppendToNumber, when nothing else fails. |
| XmlParser.ParseLocation | mulandweb/xmlparser.py:61-82 | The location loop returns the location just described, with lnglat = [lng, lat]. |
| XmlParser.ParseRoot | mulandweb/xmlparser.py:51-59 | The root loop returns the parsed locations. |
| XmlParser.RootIgnoresOthers | mulandweb/xmlparser.py:51-59 | Children not tagged 'location' play no part in the result. |
| XmlParser.RootMembers | mulandweb/xmlparser.py:51-59 | The result holds exactly the non-None parses of 'location' children, and fails exactly when one of them fails. |
| XmlParser.BuildReadBack | mulandweb/xmlparser.py:22-31 | The built tree is a 'data' element. Read back, it gives every file key in order, and for each record every value's str() text: all counts are kept. |
| XmlParser.Build | mulandweb/xmlparser.py:22-31 | The builder's nested loops produce that tree. |

## Left out

- SQL text, SQLAlchemy and PostGIS calls are not modelled. The joins are computed over in-memory tables instead, in table order. Only the zones query promises an order; the other joins are stated as multisets.
- `ST_Transform` reprojection and WKT generation are left out. Containment is a parameter, and a polygon is kept as rings rather than text.
- Every column is taken as non-NULL, although db.py declares the non-key columns nullable. A NULL data array or model header would make `get()` raise TypeError where it extends or concatenates it (`mulandweb/mulanddb.py:61-106`, 204, 230, 261, 396). A NULL scalar would be output as None.
- Connection lifecycle is left out, including the second execution of the agents and agents_zones queries (`mulandweb/mulanddb.py:228`, 259). Without that the same snapshot is read twice, and the two readings are equal.
- File and library I/O is left out: `open`, `csv.reader` (the module never imports `csv`), `shapefile.Reader`, and shapely's checks on ring sizes. Files are given as already-read rows. CSV header rows are taken as text, and data cells as text or numbers as QUOTE_NONNUMERIC yields them.
- The database's cast of a text cell bound to a float column is a parameter of the store (Importer.Store.cast). Which texts it accepts is not modelled.
- Shapes.ShapeRecord: shapefile attribute values are numbers only. A character 'ID' field is not represented. With one, `zone_wkt` would be keyed by strings, and every zones row would fail on the lookup at `mulandweb/mulanddb.py:599` (KeyError).
- `load`, `loads`, `dump` and `dumps` in `mulandweb/xmlparser.py` wrap XML parsing and serialisation of bytes; they are not modelled.
- `str()` and the `float()`/`int()` parsing of strings are parameters. Measure values are opaque reals.
- `MulandData` is a (header, records) pair. The response's dictionary order is the category order of `get()`.
- `ModelNotFound`'s exception hierarchy and the `isinstance` assertions on the model name are left out. Coordinates are reals by construction.
- Muland.MulandDB.Get: with no points, the joins would send an empty VALUES list, which the database refuses. The model reports that as EmptyValues before any query.
- Importer.Store.InsertRentAdjustments: the foreign key to real_estate_types is not checked, because that table is not modelled.
- An empty batch insert is modelled as adding nothing.
- Zoning.LastContainingSpec: the order of rows with the same point index in the zones query is taken to be table order. The database does not promise it.

## Findings

| source | as written | input that shows it | evidently intended | confidence | as-written member | corrected member |
|---|---|---|---|---|---|---|
| mulandweb/mulanddb.py:34 | tests `result is None`, which never holds, instead of `row is None` | a model name no models row has: line 50 subscripts None | raise ModelNotFound before the flattening | high, not executed | Points.OpenErrorAsWritten | Points.OpenError |
| mulandweb/mulanddb.py:244-245 | every point join builds its VALUES list from `point['zones_id']`, which an unresolved point lacks; the first such list in get()'s order is the agents_zones pair list (the other six are triples, `Engine.PointValuesAsWritten`) | one point outside every zone of the model: KeyError | leave unresolved points out of the joins | high, not executed | Engine.PointPairsAsWritten | Engine.UnresolvedOmitted |
| mulandweb/mulanddb.py:545 | inserts `name=model_name`, an undefined name | any model directory whose four header rows are readable: NameError | `name=self.name` | high, not executed | Importer.CreateModelAsWritten | Importer.ModelImporter.CreateModel |
| mulandweb/mulanddb.py:599 | reads `self.srid`, which `__init__` never assigns | a zones.csv with one row whose id the shapefile has: AttributeError | keep `srid` in `__init__` | high, not executed | Importer.ZoneValueAsWritten | Importer.ModelImporter.ImportZones |
| mulandweb/db.py:13-19 | models declares no `real_estates_zones_header` column, and db.py no bids_functions or rent_functions table | any get(): the headers query names the missing column | declare the column and the two tables | high, not executed | Tables.SchemaAsWritten | Engine.AssembleSchema |

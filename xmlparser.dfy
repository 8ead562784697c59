/** The request parser and the response builder of mulandweb/xmlparser.py over an element
    tree: a request's locations and units are read from it leniently, dropping what does not
    parse, and Muland's output is written back as a tree of records. */
module XmlParser {
  import opened Common
  import opened Request
  import opened Joins

  /** An XML element: tag, attributes, text (None when the element has none) and children. */
  datatype Element = Element(tag: string, attrib: map<string, string>, text: Option<string>, children: seq<Element>)

  /** Python's float() and int() of a string: None where they raise ValueError. */
  type FloatParser = string -> Option<Num>
  type IntParser = string -> Option<int>

  // ---- _parse_override -----------------------------------------------------------------

  /** _parse_override (mulandweb/xmlparser.py:99-105): the element's text as a float, None
      when it does not parse, and a failure when the element has no text at all (float(None)
      raises TypeError). Its properties reach callers through ApplyOverridesSpec. */
  function ParseOverride(e: Element, parseFloat: FloatParser): (r: Result<Option<Num>>)
    ensures r.Err? <==> e.text.None?
    ensures r.Err? ==> r.error == MissingText
    ensures r.Ok? ==> r.value == parseFloat(e.text.value)
  {
    if e.text.None? then Err(MissingText) else Ok(parseFloat(e.text.value))
  }

  /** The value the last child tagged key whose text parses gives, if any. */
  function LastOverride(cs: seq<Element>, key: string, parseFloat: FloatParser): Option<Num> {
    if cs == [] then None
    else
      var rest := LastOverride(cs[1..], key, parseFloat);
      if rest.Some? then rest
      else if cs[0].tag == key && cs[0].text.Some? && parseFloat(cs[0].text.value).Some?
      then parseFloat(cs[0].text.value)
      else None
  }

  /** Some child has no text. */
  predicate SomeTextMissing(cs: seq<Element>) {
    exists i :: 0 <= i < |cs| && cs[i].text.None?
  }

  // ---- _parse_unit ---------------------------------------------------------------------

  /** One child of a unit: its override, when it parses, replaces the entry for its tag. */
  function OverrideStep(d: UnitDict, c: Element, parseFloat: FloatParser): Result<UnitDict> {
    match ParseOverride(c, parseFloat)
    case Err(e) => Err(e)
    case Ok(None) => Ok(d)
    case Ok(Some(x)) => Ok(d[c.tag := Float(x)])
  }

  /** The unit dictionary after the children cs, starting from d. */
  function ApplyOverrides(d: UnitDict, cs: seq<Element>, parseFloat: FloatParser): Result<UnitDict>
    decreases |cs|
  {
    if cs == [] then Ok(d)
    else
      match OverrideStep(d, cs[0], parseFloat)
      case Err(e) => Err(e)
      case Ok(d') => ApplyOverrides(d', cs[1..], parseFloat)
  }

  /** What _parse_unit returns: None without an integer 'type'; else {'type': t} and the
      overrides of its children. */
  function UnitOf(unit: Element, parseInt: IntParser, parseFloat: FloatParser): Result<Option<UnitDict>> {
    if "type" !in unit.attrib || parseInt(unit.attrib["type"]).None? then Ok(None)
    else
      match ApplyOverrides(map["type" := Int(parseInt(unit.attrib["type"]).value)], unit.children, parseFloat)
      case Err(e) => Err(e)
      case Ok(d) => Ok(Some(d))
  }

  /** Overriding fails exactly when a child has no text; otherwise each key holds the value
      of its last parseable child, and keys no child overrides keep their value. */
  lemma {:induction false} ApplyOverridesSpec(d: UnitDict, cs: seq<Element>, parseFloat: FloatParser)
    decreases |cs|
    ensures ApplyOverrides(d, cs, parseFloat).Err? <==> SomeTextMissing(cs)
    ensures ApplyOverrides(d, cs, parseFloat).Err? ==> ApplyOverrides(d, cs, parseFloat).error == MissingText
    ensures ApplyOverrides(d, cs, parseFloat).Ok? ==>
      forall key ::
        (key in ApplyOverrides(d, cs, parseFloat).value <==> key in d || LastOverride(cs, key, parseFloat).Some?) &&
        (key in ApplyOverrides(d, cs, parseFloat).value ==>
          ApplyOverrides(d, cs, parseFloat).value[key] ==
            if LastOverride(cs, key, parseFloat).Some? then Float(LastOverride(cs, key, parseFloat).value) else d[key])
  {
    if cs != [] {
      assert forall i :: 1 <= i < |cs| ==> cs[i] == cs[1..][i - 1];
      assert SomeTextMissing(cs) <==> cs[0].text.None? || SomeTextMissing(cs[1..]) by {
        if SomeTextMissing(cs[1..]) {
          var i :| 0 <= i < |cs[1..]| && cs[1..][i].text.None?;
          assert cs[i + 1].text.None?;
        }
      }
      match OverrideStep(d, cs[0], parseFloat)
      case Err(e) =>
      case Ok(d') => ApplyOverridesSpec(d', cs[1..], parseFloat);
    }
  }

  /** A unit without an integer-parseable 'type' is dropped and never fails; a unit with one
      fails exactly when a child has no text, and otherwise is {'type': t} with, for every
      tag, the value of the last child of that tag whose text parses (which may replace
      'type' itself). */
  lemma UnitOfSpec(unit: Element, parseInt: IntParser, parseFloat: FloatParser)
    ensures ("type" !in unit.attrib || parseInt(unit.attrib["type"]).None?) ==>
              UnitOf(unit, parseInt, parseFloat) == Ok(None)
    ensures "type" in unit.attrib && parseInt(unit.attrib["type"]).Some? ==>
      && (UnitOf(unit, parseInt, parseFloat).Err? <==> SomeTextMissing(unit.children))
      && (UnitOf(unit, parseInt, parseFloat).Ok? ==>
           UnitOf(unit, parseInt, parseFloat).value.Some? &&
           forall key ::
             (key in UnitOf(unit, parseInt, parseFloat).value.value <==>
                key == "type" || LastOverride(unit.children, key, parseFloat).Some?) &&
             (key in UnitOf(unit, parseInt, parseFloat).value.value ==>
                UnitOf(unit, parseInt, parseFloat).value.value[key] ==
                  if LastOverride(unit.children, key, parseFloat).Some?
                  then Float(LastOverride(unit.children, key, parseFloat).value)
                  else Int(parseInt(unit.attrib["type"]).value)))
  {
    if "type" in unit.attrib && parseInt(unit.attrib["type"]).Some? {
      ApplyOverridesSpec(map["type" := Int(parseInt(unit.attrib["type"]).value)], unit.children, parseFloat);
    }
  }

  /** _parse_unit's loop over the unit's children. */
  method ParseUnit(unit: Element, parseInt: IntParser, parseFloat: FloatParser) returns (r: Result<Option<UnitDict>>)
    ensures r == UnitOf(unit, parseInt, parseFloat)
  {
    if "type" !in unit.attrib {
      return Ok(None);
    }
    var unitType := parseInt(unit.attrib["type"]);
    if unitType.None? {
      return Ok(None);
    }
    var ret: UnitDict := map["type" := Int(unitType.value)];
    var cs := unit.children;
    var k := 0;
    while k < |cs|
      invariant 0 <= k <= |cs|
      invariant ApplyOverrides(map["type" := Int(unitType.value)], cs, parseFloat) == ApplyOverrides(ret, cs[k..], parseFloat)
    {
      var element := cs[k];
      var override := ParseOverride(element, parseFloat);
      if override.Err? {
        return Err(override.error);
      }
      if override.value.Some? {
        ret := ret[element.tag := Float(override.value.value)];
      }
      assert cs[k..][1..] == cs[k + 1..];
      k := k + 1;
    }
    return Ok(Some(ret));
  }

  // ---- _parse_location -----------------------------------------------------------------

  /** One child of a location: a 'unit' child appends its unit when it parses, every other
      child sets the entry for its tag when its text parses. Appending after 'units' has been
      overridden by a number fails, as list.append on a float does. */
  function LocationStep(d: LocationDict, c: Element, parseInt: IntParser, parseFloat: FloatParser): Result<LocationDict> {
    if c.tag == "unit" then
      match UnitOf(c, parseInt, parseFloat)
      case Err(e) => Err(e)
      case Ok(None) => Ok(d)
      case Ok(Some(u)) =>
        if "units" in d && d["units"].Units? then Ok(d["units" := Units(d["units"].units + [u])])
        else Err(AppendToNumber)
    else
      match ParseOverride(c, parseFloat)
      case Err(e) => Err(e)
      case Ok(None) => Ok(d)
      case Ok(Some(x)) => Ok(d[c.tag := Override(x)])
  }

  function LocationFold(d: LocationDict, cs: seq<Element>, parseInt: IntParser, parseFloat: FloatParser): Result<LocationDict>
    decreases |cs|
  {
    if cs == [] then Ok(d)
    else
      match LocationStep(d, cs[0], parseInt, parseFloat)
      case Err(e) => Err(e)
      case Ok(d') => LocationFold(d', cs[1..], parseInt, parseFloat)
  }

  /** What _parse_location returns: None without parseable 'lng' and 'lat' attributes, else
      the dictionary its children build from {'units': [], 'lnglat': [lng, lat]}. */
  function LocationOf(location: Element, parseInt: IntParser, parseFloat: FloatParser): Result<Option<LocationDict>> {
    if "lat" !in location.attrib || "lng" !in location.attrib then Ok(None)
    else
      var lng, lat := parseFloat(location.attrib["lng"]), parseFloat(location.attrib["lat"]);
      if lng.None? || lat.None? then Ok(None)
      else
        match LocationFold(map["units" := Units([]), "lnglat" := LngLat(lng.value, lat.value)], location.children, parseInt, parseFloat)
        case Err(e) => Err(e)
        case Ok(d) => Ok(Some(d))
  }

  /** The units a location's 'unit' children give, in document order, dropping those
      _parse_unit returns None for. */
  function UnitsOf(cs: seq<Element>, parseInt: IntParser, parseFloat: FloatParser): Result<seq<UnitDict>> {
    if cs == [] then Ok([])
    else
      var rest := UnitsOf(cs[1..], parseInt, parseFloat);
      if cs[0].tag != "unit" then rest
      else
        match UnitOf(cs[0], parseInt, parseFloat)
        case Err(e) => Err(e)
        case Ok(None) => rest
        case Ok(Some(u)) => if rest.Err? then rest else Ok([u] + rest.value)
  }

  /** A location is dropped exactly when 'lng' or 'lat' is missing or does not parse. */
  lemma LocationDropped(location: Element, parseInt: IntParser, parseFloat: FloatParser)
    ensures LocationOf(location, parseInt, parseFloat) == Ok(None) <==>
      !("lat" in location.attrib && "lng" in location.attrib &&
        parseFloat(location.attrib["lng"]).Some? && parseFloat(location.attrib["lat"]).Some?)
  {
  }

  /** When no child is tagged 'units', the unit list a location ends with is the one it
      started with followed by the units of its 'unit' children, in order. */
  lemma {:induction false} LocationFoldUnits(d: LocationDict, cs: seq<Element>, parseInt: IntParser, parseFloat: FloatParser)
    decreases |cs|
    requires "units" in d && d["units"].Units?
    requires forall i :: 0 <= i < |cs| ==> cs[i].tag != "units"
    ensures LocationFold(d, cs, parseInt, parseFloat).Ok? ==>
      && UnitsOf(cs, parseInt, parseFloat).Ok?
      && "units" in LocationFold(d, cs, parseInt, parseFloat).value
      && LocationFold(d, cs, parseInt, parseFloat).value["units"] ==
           Units(d["units"].units + UnitsOf(cs, parseInt, parseFloat).value)
  {
    if cs != [] {
      assert forall i :: 1 <= i < |cs| ==> cs[1..][i - 1] == cs[i];
      match LocationStep(d, cs[0], parseInt, parseFloat)
      case Err(e) =>
      case Ok(d') =>
        LocationFoldUnits(d', cs[1..], parseInt, parseFloat);
        if cs[0].tag == "unit" && UnitOf(cs[0], parseInt, parseFloat).value.Some? && UnitsOf(cs[1..], parseInt, parseFloat).Ok? {
          assert d["units"].units + [UnitOf(cs[0], parseInt, parseFloat).value.value] + UnitsOf(cs[1..], parseInt, parseFloat).value
              == d["units"].units + ([UnitOf(cs[0], parseInt, parseFloat).value.value] + UnitsOf(cs[1..], parseInt, parseFloat).value);
        }
    }
  }

  /** Any key but 'units' and 'unit' ends with the value of the last child of that tag whose
      text parses, as an override; keys no child sets keep their value ('lnglat' included). */
  lemma {:induction false} LocationFoldOverride(d: LocationDict, cs: seq<Element>, key: string, parseInt: IntParser, parseFloat: FloatParser)
    decreases |cs|
    requires key != "units" && key != "unit"
    ensures LocationFold(d, cs, parseInt, parseFloat).Ok? ==>
      && (key in LocationFold(d, cs, parseInt, parseFloat).value <==> key in d || LastOverride(cs, key, parseFloat).Some?)
      && (key in LocationFold(d, cs, parseInt, parseFloat).value ==>
           LocationFold(d, cs, parseInt, parseFloat).value[key] ==
             if LastOverride(cs, key, parseFloat).Some? then Override(LastOverride(cs, key, parseFloat).value) else d[key])
  {
    if cs != [] {
      match LocationStep(d, cs[0], parseInt, parseFloat)
      case Err(e) =>
      case Ok(d') => LocationFoldOverride(d', cs[1..], key, parseInt, parseFloat);
    }
  }

  /** No child can fail but by appending a unit: every 'unit' child parses without error and
      every other child has text. */
  predicate OnlyAppendCanFail(cs: seq<Element>, parseInt: IntParser, parseFloat: FloatParser) {
    forall i :: 0 <= i < |cs| ==>
      if cs[i].tag == "unit" then UnitOf(cs[i], parseInt, parseFloat).Ok? else cs[i].text.Some?
  }

  /** Once 'units' holds an override, no unit can be parsed any more: the location either
      has no later 'unit' child that parses, and 'units' ends with the last parseable
      override, or it fails on the append (when nothing else fails first). */
  lemma {:induction false} LocationFoldAfterUnitsOverride(d: LocationDict, cs: seq<Element>, parseInt: IntParser, parseFloat: FloatParser)
    decreases |cs|
    requires "units" in d && d["units"].Override?
    ensures LocationFold(d, cs, parseInt, parseFloat).Ok? ==>
      && UnitsOf(cs, parseInt, parseFloat) == Ok([])
      && "units" in LocationFold(d, cs, parseInt, parseFloat).value
      && LocationFold(d, cs, parseInt, parseFloat).value["units"] ==
           if LastOverride(cs, "units", parseFloat).Some? then Override(LastOverride(cs, "units", parseFloat).value) else d["units"]
    ensures OnlyAppendCanFail(cs, parseInt, parseFloat) && UnitsOf(cs, parseInt, parseFloat).Ok? &&
            UnitsOf(cs, parseInt, parseFloat).value != [] ==>
      LocationFold(d, cs, parseInt, parseFloat) == Err(AppendToNumber)
  {
    if cs != [] {
      assert OnlyAppendCanFail(cs, parseInt, parseFloat) ==> OnlyAppendCanFail(cs[1..], parseInt, parseFloat) by {
        assert forall i :: 1 <= i < |cs| ==> cs[1..][i - 1] == cs[i];
      }
      match LocationStep(d, cs[0], parseInt, parseFloat)
      case Err(e) =>
      case Ok(d') => LocationFoldAfterUnitsOverride(d', cs[1..], parseInt, parseFloat);
    }
  }

  /** A child tagged 'units' whose text parses replaces the unit list by a number. After it,
      a location that parses has no 'unit' child that parses, and its 'units' is the last
      such override; when a later 'unit' child parses and nothing else fails, the location
      fails with AppendToNumber, as list.append on a float does. */
  lemma {:induction false} LocationFoldUnitsOverride(d: LocationDict, cs: seq<Element>, i: int, parseInt: IntParser, parseFloat: FloatParser)
    decreases |cs|
    requires "units" in d
    requires 0 <= i < |cs| && cs[i].tag == "units" && cs[i].text.Some? && parseFloat(cs[i].text.value).Some?
    ensures LocationFold(d, cs, parseInt, parseFloat).Ok? ==>
      && UnitsOf(cs[i + 1..], parseInt, parseFloat) == Ok([])
      && LastOverride(cs, "units", parseFloat).Some?
      && "units" in LocationFold(d, cs, parseInt, parseFloat).value
      && LocationFold(d, cs, parseInt, parseFloat).value["units"] == Override(LastOverride(cs, "units", parseFloat).value)
    ensures OnlyAppendCanFail(cs, parseInt, parseFloat) && UnitsOf(cs[i + 1..], parseInt, parseFloat).Ok? &&
            UnitsOf(cs[i + 1..], parseInt, parseFloat).value != [] ==>
      LocationFold(d, cs, parseInt, parseFloat) == Err(AppendToNumber)
  {
    assert OnlyAppendCanFail(cs, parseInt, parseFloat) ==> OnlyAppendCanFail(cs[1..], parseInt, parseFloat) by {
      assert forall j :: 1 <= j < |cs| ==> cs[1..][j - 1] == cs[j];
    }
    if i == 0 {
      var d' := d["units" := Override(parseFloat(cs[0].text.value).value)];
      assert LocationStep(d, cs[0], parseInt, parseFloat) == Ok(d');
      LocationFoldAfterUnitsOverride(d', cs[1..], parseInt, parseFloat);
    } else {
      assert cs[1..][i - 1] == cs[i];
      assert cs[1..][i - 1 + 1..] == cs[i + 1..];
      match LocationStep(d, cs[0], parseInt, parseFloat)
      case Err(e) =>
      case Ok(d') => LocationFoldUnitsOverride(d', cs[1..], i - 1, parseInt, parseFloat);
    }
  }

  /** _parse_location's loop over the location's children. */
  method ParseLocation(location: Element, parseInt: IntParser, parseFloat: FloatParser) returns (r: Result<Option<LocationDict>>)
    ensures r == LocationOf(location, parseInt, parseFloat)
  {
    if "lat" !in location.attrib || "lng" !in location.attrib {
      return Ok(None);
    }
    var lng, lat := parseFloat(location.attrib["lng"]), parseFloat(location.attrib["lat"]);
    if lng.None? || lat.None? {
      return Ok(None);
    }
    var ret: LocationDict := map["units" := Units([]), "lnglat" := LngLat(lng.value, lat.value)];
    ghost var init := ret;
    var cs := location.children;
    var k := 0;
    while k < |cs|
      invariant 0 <= k <= |cs|
      invariant LocationFold(init, cs, parseInt, parseFloat) == LocationFold(ret, cs[k..], parseInt, parseFloat)
    {
      var element := cs[k];
      if element.tag == "unit" {
        var unit := ParseUnit(element, parseInt, parseFloat);
        if unit.Err? {
          return Err(unit.error);
        }
        if unit.value.Some? {
          if !("units" in ret && ret["units"].Units?) {
            return Err(AppendToNumber);
          }
          ret := ret["units" := Units(ret["units"].units + [unit.value.value])];
        }
      } else {
        var override := ParseOverride(element, parseFloat);
        if override.Err? {
          return Err(override.error);
        }
        if override.value.Some? {
          ret := ret[element.tag := Override(override.value.value)];
        }
      }
      assert cs[k..][1..] == cs[k + 1..];
      k := k + 1;
    }
    return Ok(Some(ret));
  }

  // ---- _parse_root ---------------------------------------------------------------------

  /** What _parse_root returns: the parsed 'location' children that are not None, in order. */
  function RootOf(cs: seq<Element>, parseInt: IntParser, parseFloat: FloatParser): Result<seq<LocationDict>> {
    if cs == [] then Ok([])
    else if cs[0].tag != "location" then RootOf(cs[1..], parseInt, parseFloat)
    else
      match LocationOf(cs[0], parseInt, parseFloat)
      case Err(e) => Err(e)
      case Ok(None) => RootOf(cs[1..], parseInt, parseFloat)
      case Ok(Some(l)) =>
        var rest := RootOf(cs[1..], parseInt, parseFloat);
        if rest.Err? then rest else Ok([l] + rest.value)
  }

  /** locs followed by the result r, unless r is a failure. */
  function Prepend(locs: seq<LocationDict>, r: Result<seq<LocationDict>>): Result<seq<LocationDict>> {
    if r.Err? then r else Ok(locs + r.value)
  }

  /** _parse_root's loop over the root's children. */
  method ParseRoot(root: Element, parseInt: IntParser, parseFloat: FloatParser) returns (r: Result<seq<LocationDict>>)
    ensures r == RootOf(root.children, parseInt, parseFloat)
  {
    var ret: seq<LocationDict> := [];
    var cs := root.children;
    assert cs[0..] == cs;
    assert RootOf(cs, parseInt, parseFloat).Ok? ==> [] + RootOf(cs, parseInt, parseFloat).value == RootOf(cs, parseInt, parseFloat).value;
    var k := 0;
    while k < |cs|
      invariant 0 <= k <= |cs|
      invariant RootOf(cs, parseInt, parseFloat) == Prepend(ret, RootOf(cs[k..], parseInt, parseFloat))
    {
      var element := cs[k];
      assert cs[k..][1..] == cs[k + 1..];
      if element.tag == "location" {
        var location := ParseLocation(element, parseInt, parseFloat);
        if location.Err? {
          return Err(location.error);
        }
        if location.value.Some? {
          ghost var rest := RootOf(cs[k + 1..], parseInt, parseFloat);
          assert rest.Ok? ==> ret + ([location.value.value] + rest.value) == ret + [location.value.value] + rest.value;
          ret := ret + [location.value.value];
        }
      }
      k := k + 1;
    }
    assert cs[k..] == [];
    assert ret + [] == ret;
    return Ok(ret);
  }

  /** Children not tagged 'location' play no part in the result. */
  lemma {:induction false} RootIgnoresOthers(cs: seq<Element>, parseInt: IntParser, parseFloat: FloatParser)
    ensures RootOf(cs, parseInt, parseFloat) == RootOf(Select(cs, (c: Element) => c.tag == "location"), parseInt, parseFloat)
  {
    if cs != [] {
      RootIgnoresOthers(cs[1..], parseInt, parseFloat);
      var rest := Select(cs[1..], (c: Element) => c.tag == "location");
      if cs[0].tag == "location" {
        var sel := [cs[0]] + rest;
        assert Select(cs, (c: Element) => c.tag == "location") == sel;
        assert sel[0] == cs[0] && sel[1..] == rest;
      } else {
        assert Select(cs, (c: Element) => c.tag == "location") == rest;
      }
    }
  }

  /** The result holds exactly the parses of the 'location' children that are not None, and
      it is a failure exactly when one of those children fails. */
  lemma {:induction false} RootMembers(cs: seq<Element>, parseInt: IntParser, parseFloat: FloatParser)
    ensures RootOf(cs, parseInt, parseFloat).Err? <==>
      exists i :: 0 <= i < |cs| && cs[i].tag == "location" && LocationOf(cs[i], parseInt, parseFloat).Err?
    ensures RootOf(cs, parseInt, parseFloat).Ok? ==>
      forall l :: l in RootOf(cs, parseInt, parseFloat).value <==>
        exists i :: 0 <= i < |cs| && cs[i].tag == "location" && LocationOf(cs[i], parseInt, parseFloat) == Ok(Some(l))
  {
    if cs != [] {
      RootMembers(cs[1..], parseInt, parseFloat);
      assert forall i :: 1 <= i < |cs| ==> cs[i] == cs[1..][i - 1];
      if RootOf(cs[1..], parseInt, parseFloat).Err? {
        var i :| 0 <= i < |cs[1..]| && cs[1..][i].tag == "location" && LocationOf(cs[1..][i], parseInt, parseFloat).Err?;
        assert cs[i + 1] == cs[1..][i];
      }
      if RootOf(cs, parseInt, parseFloat).Ok? {
        forall l | exists i :: 0 <= i < |cs| && cs[i].tag == "location" && LocationOf(cs[i], parseInt, parseFloat) == Ok(Some(l))
          ensures l in RootOf(cs, parseInt, parseFloat).value
        {
          var i :| 0 <= i < |cs| && cs[i].tag == "location" && LocationOf(cs[i], parseInt, parseFloat) == Ok(Some(l));
          if i > 0 {
            assert cs[1..][i - 1] == cs[i];
          }
        }
      }
    }
  }

  // ---- _build --------------------------------------------------------------------------

  /** The tree _build makes from Muland's output: a 'data' element with one child per file,
      one 'record' per record, one 'rd' per value holding str(value). */
  function RdOf(v: Value, str: Value -> string): Element { Element("rd", map[], Some(str(v)), []) }

  function RecordOf(record: seq<Value>, str: Value -> string): Element {
    Element("record", map[], None, Map(record, (v: Value) => RdOf(v, str)))
  }

  function FileOf(key: string, records: seq<seq<Value>>, str: Value -> string): Element {
    Element(key, map[], None, Map(records, (record: seq<Value>) => RecordOf(record, str)))
  }

  function BuildTree(datain: seq<(string, seq<seq<Value>>)>, str: Value -> string): Element {
    Element("data", map[], None, Map(datain, (item: (string, seq<seq<Value>>)) => FileOf(item.0, item.1, str)))
  }

  /** Reading a built tree back: each file's tag and the texts of its records' cells. */
  function TextOf(e: Element): string { if e.text.Some? then e.text.value else "" }

  function ReadBack(e: Element): seq<(string, seq<seq<string>>)> {
    Map(e.children, (f: Element) => (f.tag, Map(f.children, (r: Element) => Map(r.children, TextOf))))
  }

  /** The built tree is a 'data' element from which the file keys, in order, and every
      cell's str() text, record by record, read back: no file, record or cell is lost. */
  lemma BuildReadBack(datain: seq<(string, seq<seq<Value>>)>, str: Value -> string)
    ensures BuildTree(datain, str).tag == "data"
    ensures ReadBack(BuildTree(datain, str)) ==
      Map(datain, (item: (string, seq<seq<Value>>)) => (item.0, Map(item.1, (record: seq<Value>) => Map(record, str))))
  {
    var e := BuildTree(datain, str);
    var want := Map(datain, (item: (string, seq<seq<Value>>)) => (item.0, Map(item.1, (record: seq<Value>) => Map(record, str))));
    var got := ReadBack(e);
    forall i | 0 <= i < |datain| ensures got[i] == want[i] {
      var f := e.children[i];
      assert f == FileOf(datain[i].0, datain[i].1, str);
      forall j | 0 <= j < |datain[i].1|
        ensures Map(f.children[j].children, TextOf) == Map(datain[i].1[j], str)
      {
        assert f.children[j] == RecordOf(datain[i].1[j], str);
      }
      assert Map(f.children, (r: Element) => Map(r.children, TextOf)) == Map(datain[i].1, (record: seq<Value>) => Map(record, str));
    }
  }

  /** _build's nested loops. */
  method Build(datain: seq<(string, seq<seq<Value>>)>, str: Value -> string) returns (datatag: Element)
    ensures datatag == BuildTree(datain, str)
  {
    var files: seq<Element> := [];
    var i := 0;
    while i < |datain|
      invariant 0 <= i <= |datain| && |files| == i
      invariant forall a :: 0 <= a < i ==> files[a] == FileOf(datain[a].0, datain[a].1, str)
    {
      var (fileKey, fileValue) := datain[i];
      var recordTags: seq<Element> := [];
      var j := 0;
      while j < |fileValue|
        invariant 0 <= j <= |fileValue| && |recordTags| == j
        invariant forall b :: 0 <= b < j ==> recordTags[b] == RecordOf(fileValue[b], str)
      {
        var record := fileValue[j];
        var rds: seq<Element> := [];
        var k := 0;
        while k < |record|
          invariant 0 <= k <= |record| && |rds| == k
          invariant forall c :: 0 <= c < k ==> rds[c] == RdOf(record[c], str)
        {
          rds := rds + [Element("rd", map[], Some(str(record[k])), [])];
          k := k + 1;
        }
        recordTags := recordTags + [Element("record", map[], None, rds)];
        j := j + 1;
      }
      files := files + [Element(fileKey, map[], None, recordTags)];
      i := i + 1;
    }
    datatag := Element("data", map[], None, files);
  }
}

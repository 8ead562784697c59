/** Values, errors and small sequence helpers shared by every part of the model. */
module Common {

  /** A floating-point measure (a Python float). The model never computes with one. */
  type Num = real

  datatype Option<+T> = None | Some(value: T)

  /** A scalar of an output record or of a parsed unit: a Python int or float. */
  datatype Value = Int(i: int) | Float(x: Num)

  /** Why an operation stops. The first group are the failures of the corrected model;
      the last four name how the code as written fails instead (see README, Findings). */
  datatype Error =
    | ModelNotFound        // no model row has the requested name
    | EmptyValues          // a join over no points: an empty VALUES list the database rejects
    | MalformedLocation    // a location or unit lacks what the engine reads from it
    | MissingText          // an override element without text: float(None)
    | AppendToNumber       // a unit after a numeric 'units' override: float has no append
    | NotPolygon           // a shape record whose shape type is not 5
    | MissingIdField       // a shape record without an 'ID' attribute
    | NoParts              // a shape record with an empty part list
    | FileNotFound         // an input file is missing
    | EmptyCsv             // a CSV file without even a header row
    | ShortRow             // a CSV row with fewer columns than are read from it
    | NotAnInteger         // int() of a text field that is not an integer
    | MissingShape         // a zones.csv id with no polygon in the shapefile
    | NoModelId            // zones imported before the model row was created
    | StoreRejected        // the data store refuses an insert
    | NoneNotSubscriptable // as written: row[0] on a missing row
    | UnresolvedZone       // as written: point['zones_id'] on an unresolved point
    | UndefinedName        // as written: the undefined name model_name
    | MissingAttribute     // as written: self.srid, or a column db.py does not declare

  datatype Result<+T> = Ok(value: T) | Err(error: Error)

  /** Python's s[i:j] for non-negative bounds, j == None meaning "to the end": both bounds
      are clipped to the length and a start past the stop gives the empty sequence. */
  function Slice<T>(s: seq<T>, i: nat, j: Option<nat>): (r: seq<T>)
    ensures var hi := if j.Some? && j.value < |s| then j.value else |s|;
            |r| == (if i < hi then hi - i else 0)
    ensures forall k :: 0 <= k < |r| ==> r[k] == s[i + k]
  {
    var hi := if j.Some? && j.value < |s| then j.value else |s|;
    if i < hi then s[i..hi] else []
  }

  /** No element occurs twice. */
  predicate NoDup<T(==)>(s: seq<T>) {
    forall i, j :: 0 <= i < |s| && 0 <= j < |s| && i != j ==> s[i] != s[j]
  }

  lemma NoDupConcat<T>(a: seq<T>, b: seq<T>)
    requires NoDup(a) && NoDup(b)
    requires forall x :: x in a ==> x !in b
    ensures NoDup(a + b)
  {
    forall i, j | 0 <= i < |a + b| && 0 <= j < |a + b| && i != j
      ensures (a + b)[i] != (a + b)[j]
    {
      if i < |a| && j >= |a| {
        assert (a + b)[i] in a && (a + b)[j] == b[j - |a|];
      } else if j < |a| && i >= |a| {
        assert (a + b)[j] in a && (a + b)[i] == b[i - |a|];
      }
    }
  }

  /** A sequence without repetitions holds each element of its set exactly once. */
  lemma {:induction false} NoDupMultiset<T>(s: seq<T>, elems: set<T>)
    requires NoDup(s)
    requires forall x :: x in s <==> x in elems
    ensures multiset(s) == multiset(elems)
  {
    if s != [] {
      var t, x := s[..|s| - 1], s[|s| - 1];
      assert s == t + [x];
      assert NoDup(t);
      assert x !in t;
      NoDupMultiset(t, elems - {x});
      assert elems == (elems - {x}) + {x};
    }
  }

  /** The first element of s that satisfies p, as a query with fetchone() returns it. */
  function First<T>(s: seq<T>, p: T -> bool): (r: Option<T>)
    ensures r.None? <==> forall k :: 0 <= k < |s| ==> !p(s[k])
    ensures r.Some? ==> exists k :: 0 <= k < |s| && s[k] == r.value && p(r.value) &&
                                    forall j :: 0 <= j < k ==> !p(s[j])
  {
    if s == [] then None
    else if p(s[0]) then Some(s[0])
    else
      First(s[1..], p)
  }

  /** f applied to every element in order, or the failure of the first element it fails on. */
  function MapAll<A, B>(xs: seq<A>, f: A -> Result<B>): (r: Result<seq<B>>)
    ensures r.Ok? <==> forall k :: 0 <= k < |xs| ==> f(xs[k]).Ok?
    ensures r.Ok? ==> |r.value| == |xs| && forall k :: 0 <= k < |xs| ==> r.value[k] == f(xs[k]).value
    ensures r.Err? ==> exists k :: 0 <= k < |xs| && f(xs[k]) == Err(r.error) &&
                                   forall j :: 0 <= j < k ==> f(xs[j]).Ok?
  {
    if xs == [] then Ok([])
    else
      var init := MapAll(xs[..|xs| - 1], f);
      if init.Err? then Err(init.error)
      else
        var last := f(xs[|xs| - 1]);
        if last.Err? then Err(last.error) else Ok(init.value + [last.value])
  }

  /** The number of elements of s that satisfy p. */
  function Count<T>(s: seq<T>, p: T -> bool): nat {
    if s == [] then 0 else (if p(s[0]) then 1 else 0) + Count(s[1..], p)
  }

  /** The cells of a float vector. */
  function Floats(xs: seq<Num>): (r: seq<Value>)
    ensures |r| == |xs| && forall k :: 0 <= k < |xs| ==> r[k] == Float(xs[k])
  {
    seq(|xs|, k requires 0 <= k < |xs| => Float(xs[k]))
  }
}

/** The location list a request carries from the parser to the engine. */
module Request {
  import opened Common

  /** A unit: 'type' holds the requested real-estate type, other keys numeric overrides. */
  type UnitDict = map<string, Value>

  /** An entry of a location dictionary: the unit list, the [lng, lat] pair, or an override. */
  datatype LocEntry = Units(units: seq<UnitDict>) | LngLat(lng: Num, lat: Num) | Override(x: Num)

  type LocationDict = map<string, LocEntry>
}

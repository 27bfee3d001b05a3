/** The argument schemas of the geospatial tools: the tolerant JSON-string preprocessing step and the
    structural validators for GeoJSON Positions, Point / Polygon / LineString geometries and
    Features (sections 3.1 and 3.2 of RFC 7946), with the issue lists that zod reports. */
module GeoJsonSchema {
  import opened Wrappers
  import opened Json
  import JsonRoundTrip

  // ---------------------------------------------------------------------------------------------
  // Values as the validator sees them, and the issues it reports

  /** zod's classification of a JavaScript value; `TUndefined` is what a missing key reads as. */
  datatype ParsedType = TString | TNumber | TBoolean | TNull | TArray | TObject | TUndefined

  /** The input to a validator: `None` is `undefined` (an absent key), `Some(v)` a JSON value. */
  function TypeOf(x: Option<Json>): (t: ParsedType)
    ensures t == TUndefined <==> x.None?
    ensures t == TObject <==> x.Some? && x.value.JObj?
    ensures t == TArray <==> x.Some? && x.value.JArr?
    ensures t == TString <==> x.Some? && x.value.JStr?
    ensures t == TNumber <==> x.Some? && x.value.JNum?
    ensures t == TBoolean <==> x.Some? && x.value.JBool?
    ensures t == TNull <==> x == Some(JNull)
  {
    match x
    case None => TUndefined
    case Some(v) =>
      match v
      case JNull => TNull
      case JBool(_) => TBoolean
      case JNum(_) => TNumber
      case JStr(_) => TString
      case JArr(_) => TArray
      case JObj(_) => TObject
  }

  /** One step of the path from the validated value to the place an issue is about. */
  datatype PathElem = Key(name: string) | Index(index: nat)

  datatype SizeKind = ArrayLength | NumberValue

  datatype IssueCode =
    | InvalidType(expected: string, received: ParsedType)
    | InvalidLiteral(expectedLiteral: string, receivedValue: Option<Json>)
    | TooSmall(kind: SizeKind, minimum: int, inclusive: bool)
    | TooBig(kind: SizeKind, maximum: int, inclusive: bool)
    | InvalidUnion(unionErrors: seq<seq<Issue>>)
    | InvalidEnumValue(options: seq<string>, receivedText: string)

  datatype Issue = Issue(path: seq<PathElem>, code: IssueCode)

  /** The outcome of validating one value: the parsed output, or the issues found, in the order
      zod reports them. */
  datatype Check<+T> = Accepted(value: T) | Rejected(issues: seq<Issue>)

  function IssuesOf<T>(c: Check<T>): seq<Issue>
  {
    if c.Accepted? then [] else c.issues
  }

  /** A rejection always carries at least one issue. */
  predicate Reported<T>(c: Check<T>)
  {
    c.Rejected? ==> c.issues != []
  }

  predicate IsObject(x: Option<Json>)
  {
    x.Some? && x.value.JObj?
  }

  /** What `x[key]` reads for an object `x` (`undefined` for an absent key). */
  function Field(x: Option<Json>, key: string): Option<Json>
    requires IsObject(x)
  {
    Get(x.value.members, key)
  }

  function NotAn<T>(expected: string, x: Option<Json>, path: seq<PathElem>): (r: Check<T>)
    ensures r == Rejected([Issue(path, InvalidType(expected, TypeOf(x)))])
  {
    Rejected([Issue(path, InvalidType(expected, TypeOf(x)))])
  }

  // ---------------------------------------------------------------------------------------------
  // The preprocessing step

  /** A string is replaced by the value `JSON.parse` reads from it; a string that is not JSON text,
      and every other value, passes through unchanged. */
  function ParseJsonString(x: Option<Json>): (r: Option<Json>)
    ensures !(x.Some? && x.value.JStr?) ==> r == x
    ensures x.Some? && x.value.JStr? && Parse(x.value.s).None? ==> r == x
    ensures x.Some? && x.value.JStr? && Parse(x.value.s).Some? ==> r == Parse(x.value.s)
  {
    if x.Some? && x.value.JStr? then
      match Parse(x.value.s)
      case Some(v) => Some(v)
      case None => x
    else x
  }

  /** The preprocessing step parses the JSON text of a value (as `Encode` writes it) back into that value. */
  lemma ParseJsonStringOfText(v: Json)
    ensures ParseJsonString(Some(JStr(Encode(v)))) == Some(v)
  {
    JsonRoundTrip.ParseEncode(v);
  }

  // ---------------------------------------------------------------------------------------------
  // Leaf validators

  function CheckLiteral(x: Option<Json>, literal: string, path: seq<PathElem>): (r: Check<()>)
    ensures r.Accepted? <==> x == Some(JStr(literal))
    ensures r.Rejected? ==> r.issues == [Issue(path, InvalidLiteral(literal, x))]
  {
    if x == Some(JStr(literal)) then Accepted(())
    else Rejected([Issue(path, InvalidLiteral(literal, x))])
  }

  function CheckString(x: Option<Json>, path: seq<PathElem>): (r: Check<string>)
    ensures r.Accepted? <==> x.Some? && x.value.JStr?
    ensures r.Accepted? ==> x == Some(JStr(r.value))
    ensures r.Rejected? ==> r.issues == [Issue(path, InvalidType("string", TypeOf(x)))]
  {
    if x.Some? && x.value.JStr? then Accepted(x.value.s) else NotAn("string", x, path)
  }

  function CheckNumber(x: Option<Json>, path: seq<PathElem>): (r: Check<Decimal>)
    ensures r.Accepted? <==> x.Some? && x.value.JNum?
    ensures r.Accepted? ==> x == Some(JNum(r.value))
    ensures r.Rejected? ==> r.issues == [Issue(path, InvalidType("number", TypeOf(x)))]
  {
    if x.Some? && x.value.JNum? then Accepted(x.value.n) else NotAn("number", x, path)
  }

  // ---------------------------------------------------------------------------------------------
  // Arrays

  /** An element validator: given the element and its path. */
  type ElementCheck<T> = (Option<Json>, seq<PathElem>) -> Check<T>

  /** The elements `items`, the first of which sits at index `start`, each validated in order;
      every element is checked, and the issues of all of them are reported. */
  function CheckItems<T>(items: seq<Json>, start: nat, path: seq<PathElem>, elem: ElementCheck<T>)
    : (r: Check<seq<T>>)
    ensures r.Accepted? ==> |r.value| == |items|
    decreases |items|
  {
    if items == [] then Accepted([])
    else
      var head := elem(Some(items[0]), path + [Index(start)]);
      var tail := CheckItems(items[1..], start + 1, path, elem);
      if head.Accepted? && tail.Accepted? then Accepted([head.value] + tail.value)
      else Rejected(IssuesOf(head) + IssuesOf(tail))
  }

  /** The size issues of an array of length `n` with bounds `min` and `max`, minimum first. */
  function SizeIssues(n: nat, min: nat, max: Option<nat>, path: seq<PathElem>): (r: seq<Issue>)
    ensures r == [] <==> min <= n && (max.None? || n <= max.value)
  {
    (if n < min then [Issue(path, TooSmall(ArrayLength, min, true))] else [])
    + (if max.Some? && n > max.value then [Issue(path, TooBig(ArrayLength, max.value, true))] else [])
  }

  /** `z.array(elem).min(min).max(max)`: the type check first; then the size issues, followed by
      the issues of the elements. */
  function CheckArray<T>(x: Option<Json>, path: seq<PathElem>, min: nat, max: Option<nat>,
                         elem: ElementCheck<T>): (r: Check<seq<T>>)
  {
    if !(x.Some? && x.value.JArr?) then NotAn("array", x, path)
    else
      var items := x.value.items;
      var sizeIssues := SizeIssues(|items|, min, max, path);
      var elems := CheckItems(items, 0, path, elem);
      if sizeIssues == [] && elems.Accepted? then Accepted(elems.value)
      else Rejected(sizeIssues + IssuesOf(elems))
  }

  /** The position arrays of RFC 7946 section 3.1.1, as the tool schemas write them. */
  type Position = seq<Decimal>

  function CheckPosition(x: Option<Json>, path: seq<PathElem>): Check<Position>
  {
    CheckArray(x, path, 2, Some(3), (y, p) => CheckNumber(y, p))
  }

  /** A linear ring (RFC 7946 section 3.1.6): four positions or more. That the first and last positions
      coincide is documented but not checked. */
  function CheckLinearRing(x: Option<Json>, path: seq<PathElem>): Check<seq<Position>>
  {
    CheckArray(x, path, 4, None, (y, p) => CheckPosition(y, p))
  }

  function CheckPolygonCoordinates(x: Option<Json>, path: seq<PathElem>): Check<seq<seq<Position>>>
  {
    CheckArray(x, path, 0, None, (y, p) => CheckLinearRing(y, p))
  }

  function CheckLineStringCoordinates(x: Option<Json>, path: seq<PathElem>): Check<seq<Position>>
  {
    CheckArray(x, path, 2, None, (y, p) => CheckPosition(y, p))
  }

  // ---------------------------------------------------------------------------------------------
  // Geometries and Features

  /** The parsed geometry; `OtherGeometry` is the output of the catch-all arm of the generic
      schema, which keeps the `type` text and the raw `coordinates` (absent when the key is). */
  datatype Geometry =
    | PointGeometry(position: Position)
    | PolygonGeometry(rings: seq<seq<Position>>)
    | LineStringGeometry(line: seq<Position>)
    | OtherGeometry(kind: string, coordinates: Option<Json>)

  datatype Properties = NoProperties | NullProperties | RecordProperties(members: seq<Member>)

  /** The parsed Feature handed to `execute`; its `type` is always "Feature". */
  datatype Feature = Feature(geometry: Geometry, properties: Properties)

  /** An object schema with fields `type` (the literal `tag`) and `coordinates`; all fields are
      checked and their issues reported in field order. */
  function CheckTaggedGeometry<C>(x: Option<Json>, path: seq<PathElem>, tag: string,
                                  coordinates: ElementCheck<C>, build: C -> Geometry)
    : (r: Check<Geometry>)
  {
    if !IsObject(x) then NotAn("object", x, path)
    else
      var t := CheckLiteral(Field(x, "type"), tag, path + [Key("type")]);
      var c := coordinates(Field(x, "coordinates"), path + [Key("coordinates")]);
      if t.Accepted? && c.Accepted? then Accepted(build(c.value))
      else Rejected(IssuesOf(t) + IssuesOf(c))
  }

  function CheckPointGeometry(x: Option<Json>, path: seq<PathElem>): Check<Geometry>
  {
    CheckTaggedGeometry(x, path, "Point", (y, p) => CheckPosition(y, p), c => PointGeometry(c))
  }

  function CheckPolygonGeometry(x: Option<Json>, path: seq<PathElem>): Check<Geometry>
  {
    CheckTaggedGeometry(x, path, "Polygon", (y, p) => CheckPolygonCoordinates(y, p),
                        c => PolygonGeometry(c))
  }

  function CheckLineStringGeometry(x: Option<Json>, path: seq<PathElem>): Check<Geometry>
  {
    CheckTaggedGeometry(x, path, "LineString", (y, p) => CheckLineStringCoordinates(y, p),
                        c => LineStringGeometry(c))
  }

  /** The catch-all arm: any object whose `type` is a string; `coordinates` may be anything. */
  function CheckAnyGeometry(x: Option<Json>, path: seq<PathElem>): (r: Check<Geometry>)
    ensures r.Accepted? <==> IsObject(x) && Field(x, "type").Some? && Field(x, "type").value.JStr?
    ensures Reported(r)
  {
    if !IsObject(x) then NotAn("object", x, path)
    else
      var t := CheckString(Field(x, "type"), path + [Key("type")]);
      if t.Accepted? then Accepted(OtherGeometry(t.value, Field(x, "coordinates")))
      else Rejected(t.issues)
  }

  /** The union of the four arms: the first arm that accepts wins; when none does, the one issue
      reported is an invalid union carrying each arm's issues. */
  function CheckGenericGeometry(x: Option<Json>, path: seq<PathElem>): (r: Check<Geometry>)
    ensures r.Rejected? ==>
      r.issues == [Issue(path, InvalidUnion([
        IssuesOf(CheckPointGeometry(x, path)), IssuesOf(CheckPolygonGeometry(x, path)),
        IssuesOf(CheckLineStringGeometry(x, path)), IssuesOf(CheckAnyGeometry(x, path))]))]
  {
    var point := CheckPointGeometry(x, path);
    var polygon := CheckPolygonGeometry(x, path);
    var line := CheckLineStringGeometry(x, path);
    var any := CheckAnyGeometry(x, path);
    if point.Accepted? then point
    else if polygon.Accepted? then polygon
    else if line.Accepted? then line
    else if any.Accepted? then any
    else Rejected([Issue(path, InvalidUnion([point.issues, polygon.issues, line.issues, any.issues]))])
  }

  /** `z.record(z.string(), z.any()).nullable().optional()`. */
  function CheckProperties(x: Option<Json>, path: seq<PathElem>): (r: Check<Properties>)
    ensures r.Accepted? <==> x.None? || x.value.JNull? || x.value.JObj?
    ensures r.Rejected? ==> r.issues == [Issue(path, InvalidType("object", TypeOf(x)))]
  {
    match x
    case None => Accepted(NoProperties)
    case Some(JNull) => Accepted(NullProperties)
    case Some(JObj(members)) => Accepted(RecordProperties(members))
    case Some(_) => NotAn("object", x, path)
  }

  /** A Feature object schema whose geometry field is checked by `geometry`: fields `type`
      (the literal "Feature"), `geometry` and `properties`, checked in that order. */
  function CheckFeatureObject(x: Option<Json>, path: seq<PathElem>, geometry: ElementCheck<Geometry>)
    : (r: Check<Feature>)
  {
    if !IsObject(x) then NotAn("object", x, path)
    else
      var t := CheckLiteral(Field(x, "type"), "Feature", path + [Key("type")]);
      var g := geometry(Field(x, "geometry"), path + [Key("geometry")]);
      var p := CheckProperties(Field(x, "properties"), path + [Key("properties")]);
      if t.Accepted? && g.Accepted? && p.Accepted? then Accepted(Feature(g.value, p.value))
      else Rejected(IssuesOf(t) + IssuesOf(g) + IssuesOf(p))
  }

  /** The three Feature schemas of the tools: the preprocessing step, then the object schema. */
  function CheckPointFeature(x: Option<Json>, path: seq<PathElem>): Check<Feature>
  {
    CheckFeatureObject(ParseJsonString(x), path, (y, p) => CheckPointGeometry(y, p))
  }

  function CheckPolygonFeature(x: Option<Json>, path: seq<PathElem>): Check<Feature>
  {
    CheckFeatureObject(ParseJsonString(x), path, (y, p) => CheckPolygonGeometry(y, p))
  }

  function CheckGenericFeature(x: Option<Json>, path: seq<PathElem>): Check<Feature>
  {
    CheckFeatureObject(ParseJsonString(x), path, (y, p) => CheckGenericGeometry(y, p))
  }
}

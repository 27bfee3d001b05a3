/** The four geospatial tools offered to the chat model: their argument schemas, the unit defaults,
    and the `execute` bodies, which turn every failure of a measurement into an error payload.
    The measurements themselves are a library of functions passed in. */
module GeoTools {
  import opened Wrappers
  import opened Json
  import opened GeoJsonSchema
  import GeoJsonFacts

  // ---------------------------------------------------------------------------------------------
  // Units and radius

  /** The closed list of metric units the tools accept. */
  datatype Units = Kilometers | Meters

  function UnitName(u: Units): string
  {
    match u
    case Kilometers => "kilometers"
    case Meters => "meters"
  }

  const UnitNames: seq<string> := ["kilometers", "meters"]

  /** `z.enum(["kilometers", "meters"]).optional().default(default)`: an absent value becomes the
      default; a string must name a unit; anything else has the wrong type. */
  function CheckUnits(x: Option<Json>, default: Units, path: seq<PathElem>): (r: Check<Units>)
    ensures x.None? ==> r == Accepted(default)
    ensures x.Some? ==> (r.Accepted? <==> exists u :: x.value == JStr(UnitName(u)))
    ensures x.Some? && r.Accepted? ==> x.value == JStr(UnitName(r.value))
    ensures x.Some? && x.value.JStr? && r.Rejected? ==>
      r.issues == [Issue(path, InvalidEnumValue(UnitNames, x.value.s))]
    ensures x.Some? && !x.value.JStr? ==>
      r == Rejected([Issue(path, InvalidType("'kilometers' | 'meters'", TypeOf(x)))])
  {
    match x
    case None => Accepted(default)
    case Some(JStr(s)) =>
      if s == UnitName(Kilometers) then Accepted(Kilometers)
      else if s == UnitName(Meters) then Accepted(Meters)
      else
        assert forall u :: UnitName(u) != s;
        Rejected([Issue(path, InvalidEnumValue(UnitNames, s))])
    case Some(_) => NotAn("'kilometers' | 'meters'", x, path)
  }

  /** `z.number().positive()`: a number strictly above zero. */
  function CheckRadius(x: Option<Json>, path: seq<PathElem>): (r: Check<Decimal>)
    ensures r.Accepted? <==> x.Some? && x.value.JNum? && Value(x.value.n) > 0.0
    ensures r.Accepted? ==> x == Some(JNum(r.value))
    ensures x.Some? && x.value.JNum? && Value(x.value.n) <= 0.0 ==>
      r == Rejected([Issue(path, TooSmall(NumberValue, 0, false))])
    ensures Reported(r)
  {
    if !(x.Some? && x.value.JNum?) then NotAn("number", x, path)
    else if Value(x.value.n) <= 0.0 then Rejected([Issue(path, TooSmall(NumberValue, 0, false))])
    else Accepted(x.value.n)
  }

  // ---------------------------------------------------------------------------------------------
  // Measurements and tool results

  /** The measurement functions, each of which returns its result or throws. The buffer may
      return `undefined` (`None`). */
  datatype Library = Library(
    polygonArea: Feature -> Outcome<real>,
    distance: (Feature, Feature, Units) -> Outcome<real>,
    pointBuffer: (Feature, Decimal, Units) -> Outcome<Option<Json>>,
    centroid: Feature -> Outcome<Json>)

  /** The payload an `execute` returns to the chat model. */
  datatype ToolResult =
    | AreaResult(area: real)
    | DistanceResult(distance: real, unit: Units)
    | BufferResult(bufferFeature: Json)
    | CentroidResult(centroid: Json)
    | ErrorResult(error: string)

  /** The message of a caught failure: an `Error`'s own message, otherwise a fixed text. */
  function ErrorMessage(t: Thrown): (m: string)
    ensures t.ErrorInstance? ==> m == t.message
    ensures !t.ErrorInstance? ==> m == "Calculation failed"
  {
    match t
    case ErrorInstance(message) => message
    case OtherThrown(_) => "Calculation failed"
    case Nullish => "Calculation failed"
  }

  const UndefinedBufferMessage: string := "Buffer creation resulted in undefined feature."

  /** Each `execute` returns its payload whatever the measurement does: a failure becomes an
      error payload carrying the failure's message. */
  function ExecuteArea(lib: Library, polygon: Feature): (r: ToolResult)
    ensures r.ErrorResult? <==> lib.polygonArea(polygon).Threw?
    ensures r.ErrorResult? ==> r.error == ErrorMessage(lib.polygonArea(polygon).thrown)
    ensures lib.polygonArea(polygon).Returned? ==> r == AreaResult(lib.polygonArea(polygon).value)
  {
    match lib.polygonArea(polygon)
    case Returned(area) => AreaResult(area)
    case Threw(t) => ErrorResult(ErrorMessage(t))
  }

  /** A measured distance is returned together with the unit it was measured in. */
  function ExecuteDistance(lib: Library, point1: Feature, point2: Feature, units: Units): (r: ToolResult)
    ensures r.ErrorResult? <==> lib.distance(point1, point2, units).Threw?
    ensures r.ErrorResult? ==> r.error == ErrorMessage(lib.distance(point1, point2, units).thrown)
    ensures lib.distance(point1, point2, units).Returned? ==>
      r == DistanceResult(lib.distance(point1, point2, units).value, units)
  {
    match lib.distance(point1, point2, units)
    case Returned(distance) => DistanceResult(distance, units)
    case Threw(t) => ErrorResult(ErrorMessage(t))
  }

  /** JavaScript falsiness of a value the buffer may return: `null`, `false`, zero and the empty
      string (`undefined` is `None`). */
  predicate IsFalsy(v: Json)
  {
    v == JNull || v == JBool(false) || (v.JNum? && Value(v.n) == 0.0) || v == JStr("")
  }

  /** A buffer that is undefined, or any other falsy value, is reported as an error like a
      failure is. */
  function ExecuteBuffer(lib: Library, point: Feature, radius: Decimal, units: Units): (r: ToolResult)
    ensures r.ErrorResult? <==> lib.pointBuffer(point, radius, units).Threw? ||
                                lib.pointBuffer(point, radius, units).value.None? ||
                                IsFalsy(lib.pointBuffer(point, radius, units).value.value)
    ensures lib.pointBuffer(point, radius, units).Threw? ==>
      r == ErrorResult(ErrorMessage(lib.pointBuffer(point, radius, units).thrown))
    ensures lib.pointBuffer(point, radius, units).Returned? &&
            (lib.pointBuffer(point, radius, units).value.None? || IsFalsy(lib.pointBuffer(point, radius, units).value.value)) ==>
      r == ErrorResult(UndefinedBufferMessage)
    ensures lib.pointBuffer(point, radius, units).Returned? && lib.pointBuffer(point, radius, units).value.Some? &&
            !IsFalsy(lib.pointBuffer(point, radius, units).value.value) ==>
      r == BufferResult(lib.pointBuffer(point, radius, units).value.value)
  {
    match lib.pointBuffer(point, radius, units)
    case Returned(None) => ErrorResult(UndefinedBufferMessage)
    case Returned(Some(feature)) => if IsFalsy(feature) then ErrorResult(UndefinedBufferMessage) else BufferResult(feature)
    case Threw(t) => ErrorResult(ErrorMessage(t))
  }

  function ExecuteCentroid(lib: Library, feature: Feature): (r: ToolResult)
    ensures r.ErrorResult? <==> lib.centroid(feature).Threw?
    ensures r.ErrorResult? ==> r.error == ErrorMessage(lib.centroid(feature).thrown)
    ensures lib.centroid(feature).Returned? ==> r == CentroidResult(lib.centroid(feature).value)
  {
    match lib.centroid(feature)
    case Returned(centroid) => CentroidResult(centroid)
    case Threw(t) => ErrorResult(ErrorMessage(t))
  }

  // ---------------------------------------------------------------------------------------------
  // Arguments and calls

  datatype AreaArgs = AreaArgs(polygon: Feature)
  datatype DistanceArgs = DistanceArgs(point1: Feature, point2: Feature, units: Units)
  datatype BufferArgs = BufferArgs(point: Feature, radius: Decimal, units: Units)
  datatype CentroidArgs = CentroidArgs(feature: Feature)

  function CheckAreaArgs(args: Json): Check<AreaArgs>
  {
    var x := Some(args);
    if !IsObject(x) then NotAn("object", x, [])
    else
      var polygon := CheckPolygonFeature(Field(x, "polygon"), [Key("polygon")]);
      if polygon.Accepted? then Accepted(AreaArgs(polygon.value)) else Rejected(polygon.issues)
  }

  function CheckDistanceArgs(args: Json): Check<DistanceArgs>
  {
    var x := Some(args);
    if !IsObject(x) then NotAn("object", x, [])
    else
      var point1 := CheckPointFeature(Field(x, "point1"), [Key("point1")]);
      var point2 := CheckPointFeature(Field(x, "point2"), [Key("point2")]);
      var units := CheckUnits(Field(x, "units"), Kilometers, [Key("units")]);
      if point1.Accepted? && point2.Accepted? && units.Accepted? then
        Accepted(DistanceArgs(point1.value, point2.value, units.value))
      else Rejected(IssuesOf(point1) + IssuesOf(point2) + IssuesOf(units))
  }

  function CheckBufferArgs(args: Json): Check<BufferArgs>
  {
    var x := Some(args);
    if !IsObject(x) then NotAn("object", x, [])
    else
      var point := CheckPointFeature(Field(x, "point"), [Key("point")]);
      var radius := CheckRadius(Field(x, "radius"), [Key("radius")]);
      var units := CheckUnits(Field(x, "units"), Meters, [Key("units")]);
      if point.Accepted? && radius.Accepted? && units.Accepted? then
        Accepted(BufferArgs(point.value, radius.value, units.value))
      else Rejected(IssuesOf(point) + IssuesOf(radius) + IssuesOf(units))
  }

  function CheckCentroidArgs(args: Json): Check<CentroidArgs>
  {
    var x := Some(args);
    if !IsObject(x) then NotAn("object", x, [])
    else
      var feature := CheckGenericFeature(Field(x, "feature"), [Key("feature")]);
      if feature.Accepted? then Accepted(CentroidArgs(feature.value)) else Rejected(feature.issues)
  }

  /** A call of a tool: the runtime validates the arguments first and runs `execute` only on
      arguments that pass, handing it the parsed values. */
  datatype ToolCall = ArgumentsRejected(issues: seq<Issue>) | Executed(result: ToolResult)

  function CallAreaTool(lib: Library, args: Json): ToolCall
  {
    match CheckAreaArgs(args)
    case Rejected(issues) => ArgumentsRejected(issues)
    case Accepted(a) => Executed(ExecuteArea(lib, a.polygon))
  }

  function CallDistanceTool(lib: Library, args: Json): ToolCall
  {
    match CheckDistanceArgs(args)
    case Rejected(issues) => ArgumentsRejected(issues)
    case Accepted(a) => Executed(ExecuteDistance(lib, a.point1, a.point2, a.units))
  }

  function CallBufferTool(lib: Library, args: Json): ToolCall
  {
    match CheckBufferArgs(args)
    case Rejected(issues) => ArgumentsRejected(issues)
    case Accepted(a) => Executed(ExecuteBuffer(lib, a.point, a.radius, a.units))
  }

  function CallCentroidTool(lib: Library, args: Json): ToolCall
  {
    match CheckCentroidArgs(args)
    case Rejected(issues) => ArgumentsRejected(issues)
    case Accepted(a) => Executed(ExecuteCentroid(lib, a.feature))
  }

  // ---------------------------------------------------------------------------------------------
  // Properties of the tools

  /** A unit's own name is accepted as that unit, whatever the default. */
  lemma UnitNameAccepted(u: Units, default: Units, path: seq<PathElem>)
    ensures CheckUnits(Some(JStr(UnitName(u))), default, path) == Accepted(u)
  {
  }

  /** The argument of a Feature field after the preprocessing step. */
  function Preprocessed(args: Json, key: string): Option<Json>
    requires args.JObj?
  {
    ParseJsonString(Get(args.members, key))
  }

  predicate IsUnitsArgument(x: Option<Json>)
  {
    x.None? || x == Some(JStr("kilometers")) || x == Some(JStr("meters"))
  }

  lemma UnitsArgumentAccepted(x: Option<Json>, default: Units, path: seq<PathElem>)
    ensures CheckUnits(x, default, path).Accepted? <==> IsUnitsArgument(x)
    ensures Reported(CheckUnits(x, default, path))
  {
    if x.Some? && x.value.JStr? && CheckUnits(x, default, path).Accepted? {
      var u := CheckUnits(x, default, path).value;
      assert x.value == JStr(UnitName(u));
    }
  }

  /** The area tool runs exactly when its `polygon` argument is (or is the JSON text of) a Polygon
      Feature; otherwise the call is rejected with at least one issue. */
  lemma AreaToolRuns(lib: Library, args: Json)
    ensures CallAreaTool(lib, args).Executed? <==>
      args.JObj? && Preprocessed(args, "polygon").Some? && GeoJsonFacts.IsPolygonFeature(Preprocessed(args, "polygon").value)
    ensures CallAreaTool(lib, args).ArgumentsRejected? ==> CallAreaTool(lib, args).issues != []
  {
    if args.JObj? {
      GeoJsonFacts.PolygonFeatureAccepted(Get(args.members, "polygon"), [Key("polygon")]);
    }
  }

  lemma DistanceToolRuns(lib: Library, args: Json)
    ensures CallDistanceTool(lib, args).Executed? <==>
      args.JObj? &&
      Preprocessed(args, "point1").Some? && GeoJsonFacts.IsPointFeature(Preprocessed(args, "point1").value) &&
      Preprocessed(args, "point2").Some? && GeoJsonFacts.IsPointFeature(Preprocessed(args, "point2").value) &&
      IsUnitsArgument(Get(args.members, "units"))
    ensures CallDistanceTool(lib, args).ArgumentsRejected? ==> CallDistanceTool(lib, args).issues != []
  {
    if args.JObj? {
      GeoJsonFacts.PointFeatureAccepted(Get(args.members, "point1"), [Key("point1")]);
      GeoJsonFacts.PointFeatureAccepted(Get(args.members, "point2"), [Key("point2")]);
      UnitsArgumentAccepted(Get(args.members, "units"), Kilometers, [Key("units")]);
    }
  }

  lemma BufferToolRuns(lib: Library, args: Json)
    ensures CallBufferTool(lib, args).Executed? <==>
      args.JObj? &&
      Preprocessed(args, "point").Some? && GeoJsonFacts.IsPointFeature(Preprocessed(args, "point").value) &&
      Get(args.members, "radius").Some? && Get(args.members, "radius").value.JNum? &&
      Value(Get(args.members, "radius").value.n) > 0.0 &&
      IsUnitsArgument(Get(args.members, "units"))
    ensures CallBufferTool(lib, args).ArgumentsRejected? ==> CallBufferTool(lib, args).issues != []
  {
    if args.JObj? {
      GeoJsonFacts.PointFeatureAccepted(Get(args.members, "point"), [Key("point")]);
      UnitsArgumentAccepted(Get(args.members, "units"), Meters, [Key("units")]);
    }
  }

  lemma CentroidToolRuns(lib: Library, args: Json)
    ensures CallCentroidTool(lib, args).Executed? <==>
      args.JObj? && Preprocessed(args, "feature").Some? && GeoJsonFacts.IsGenericFeature(Preprocessed(args, "feature").value)
    ensures CallCentroidTool(lib, args).ArgumentsRejected? ==> CallCentroidTool(lib, args).issues != []
  {
    if args.JObj? {
      GeoJsonFacts.GenericFeatureAccepted(Get(args.members, "feature"), [Key("feature")]);
    }
  }

  /** Without a `units` argument the distance is measured, and reported, in kilometers. */
  lemma DistanceDefaultsToKilometers(lib: Library, args: Json)
    requires args.JObj? && Get(args.members, "units").None?
    ensures CheckDistanceArgs(args).Accepted? ==>
      var a := CheckDistanceArgs(args).value;
      a.units == Kilometers &&
      CallDistanceTool(lib, args) == Executed(ExecuteDistance(lib, a.point1, a.point2, Kilometers)) &&
      (lib.distance(a.point1, a.point2, Kilometers).Returned? ==>
         CallDistanceTool(lib, args).result ==
           DistanceResult(lib.distance(a.point1, a.point2, Kilometers).value, Kilometers))
  {
  }

  /** A named unit is the one measured in and reported back: a successful measurement returns
      the distance together with that unit. */
  lemma DistanceEchoesUnit(lib: Library, args: Json, u: Units)
    requires args.JObj? && Get(args.members, "units") == Some(JStr(UnitName(u)))
    ensures CheckDistanceArgs(args).Accepted? ==>
      var a := CheckDistanceArgs(args).value;
      a.units == u &&
      (lib.distance(a.point1, a.point2, u).Returned? ==>
         CallDistanceTool(lib, args) ==
           Executed(DistanceResult(lib.distance(a.point1, a.point2, u).value, u)))
  {
    UnitNameAccepted(u, Kilometers, [Key("units")]);
  }

  /** Without a `units` argument the buffer radius is taken in meters. */
  lemma BufferDefaultsToMeters(lib: Library, args: Json)
    requires args.JObj? && Get(args.members, "units").None?
    ensures CheckBufferArgs(args).Accepted? ==>
      CallBufferTool(lib, args) ==
        Executed(ExecuteBuffer(lib, CheckBufferArgs(args).value.point, CheckBufferArgs(args).value.radius, Meters))
  {
  }

  /** A radius of zero or below never reaches the buffer: the call is rejected with a too-small
      issue at `radius`. */
  lemma NonPositiveRadiusRejected(lib: Library, args: Json)
    requires args.JObj? && Get(args.members, "radius").Some? && Get(args.members, "radius").value.JNum?
    requires Value(Get(args.members, "radius").value.n) <= 0.0
    ensures CallBufferTool(lib, args).ArgumentsRejected?
    ensures Issue([Key("radius")], TooSmall(NumberValue, 0, false)) in CallBufferTool(lib, args).issues
  {
    var x := Some(args);
    var point := CheckPointFeature(Field(x, "point"), [Key("point")]);
    var units := CheckUnits(Field(x, "units"), Meters, [Key("units")]);
    assert CallBufferTool(lib, args).issues ==
      IssuesOf(point) + [Issue([Key("radius")], TooSmall(NumberValue, 0, false))] + IssuesOf(units);
  }

  /** The calls read their Feature arguments only after the preprocessing step: arguments that
      agree after it lead to the same call. */
  lemma AreaArgsAfterPreprocessing(args: Json, other: Json)
    requires args.JObj? && other.JObj?
    requires Preprocessed(args, "polygon") == Preprocessed(other, "polygon")
    ensures CheckAreaArgs(args) == CheckAreaArgs(other)
  {
    assert CheckPolygonFeature(Get(args.members, "polygon"), [Key("polygon")]) ==
      CheckPolygonFeature(Get(other.members, "polygon"), [Key("polygon")]);
  }

  lemma DistanceArgsAfterPreprocessing(args: Json, other: Json)
    requires args.JObj? && other.JObj?
    requires Preprocessed(args, "point1") == Preprocessed(other, "point1")
    requires Preprocessed(args, "point2") == Preprocessed(other, "point2")
    requires Get(args.members, "units") == Get(other.members, "units")
    ensures CheckDistanceArgs(args) == CheckDistanceArgs(other)
  {
    assert CheckPointFeature(Get(args.members, "point1"), [Key("point1")]) ==
      CheckPointFeature(Get(other.members, "point1"), [Key("point1")]);
    assert CheckPointFeature(Get(args.members, "point2"), [Key("point2")]) ==
      CheckPointFeature(Get(other.members, "point2"), [Key("point2")]);
  }

  lemma BufferArgsAfterPreprocessing(args: Json, other: Json)
    requires args.JObj? && other.JObj?
    requires Preprocessed(args, "point") == Preprocessed(other, "point")
    requires Get(args.members, "radius") == Get(other.members, "radius")
    requires Get(args.members, "units") == Get(other.members, "units")
    ensures CheckBufferArgs(args) == CheckBufferArgs(other)
  {
    assert CheckPointFeature(Get(args.members, "point"), [Key("point")]) ==
      CheckPointFeature(Get(other.members, "point"), [Key("point")]);
  }

  lemma CentroidArgsAfterPreprocessing(args: Json, other: Json)
    requires args.JObj? && other.JObj?
    requires Preprocessed(args, "feature") == Preprocessed(other, "feature")
    ensures CheckCentroidArgs(args) == CheckCentroidArgs(other)
  {
    assert CheckGenericFeature(Get(args.members, "feature"), [Key("feature")]) ==
      CheckGenericFeature(Get(other.members, "feature"), [Key("feature")]);
  }

  /** A Feature argument may be given as its JSON text: the call then does exactly what it does
      with the Feature itself. */
  lemma StringifiedPolygonArgument(lib: Library, args: Json, text: Json, v: Json)
    requires !v.JStr?
    requires args.JObj? && text.JObj?
    requires Get(args.members, "polygon") == Some(v) && Get(text.members, "polygon") == Some(JStr(Encode(v)))
    ensures CallAreaTool(lib, text) == CallAreaTool(lib, args)
  {
    GeoJsonFacts.StringifiedFeature(v, [Key("polygon")]);
    AreaArgsAfterPreprocessing(text, args);
  }

  lemma StringifiedPointArguments(lib: Library, args: Json, text: Json, v1: Json, v2: Json)
    requires !v1.JStr? && !v2.JStr?
    requires args.JObj? && text.JObj?
    requires Get(args.members, "point1") == Some(v1) && Get(text.members, "point1") == Some(JStr(Encode(v1)))
    requires Get(args.members, "point2") == Some(v2) && Get(text.members, "point2") == Some(JStr(Encode(v2)))
    requires Get(args.members, "units") == Get(text.members, "units")
    ensures CallDistanceTool(lib, text) == CallDistanceTool(lib, args)
  {
    GeoJsonFacts.StringifiedFeature(v1, [Key("point1")]);
    GeoJsonFacts.StringifiedFeature(v2, [Key("point2")]);
    DistanceArgsAfterPreprocessing(text, args);
  }

  lemma StringifiedBufferArgument(lib: Library, args: Json, text: Json, v: Json)
    requires !v.JStr?
    requires args.JObj? && text.JObj?
    requires Get(args.members, "point") == Some(v) && Get(text.members, "point") == Some(JStr(Encode(v)))
    requires Get(args.members, "radius") == Get(text.members, "radius")
    requires Get(args.members, "units") == Get(text.members, "units")
    ensures CallBufferTool(lib, text) == CallBufferTool(lib, args)
  {
    GeoJsonFacts.StringifiedFeature(v, [Key("point")]);
    BufferArgsAfterPreprocessing(text, args);
  }

  lemma StringifiedFeatureArgument(lib: Library, args: Json, text: Json, v: Json)
    requires !v.JStr?
    requires args.JObj? && text.JObj?
    requires Get(args.members, "feature") == Some(v) && Get(text.members, "feature") == Some(JStr(Encode(v)))
    ensures CallCentroidTool(lib, text) == CallCentroidTool(lib, args)
  {
    GeoJsonFacts.StringifiedFeature(v, [Key("feature")]);
    CentroidArgsAfterPreprocessing(text, args);
  }

  /** A Polygon argument that is a string but not JSON text is rejected as a string. */
  lemma NonJsonPolygonRejected(lib: Library, args: Json, s: string)
    requires args.JObj? && Get(args.members, "polygon") == Some(JStr(s)) && Parse(s).None?
    ensures CallAreaTool(lib, args) == ArgumentsRejected([Issue([Key("polygon")], InvalidType("object", TString))])
  {
    GeoJsonFacts.NotJsonTextFeature(s, [Key("polygon")]);
  }
}

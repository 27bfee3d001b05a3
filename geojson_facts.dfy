/** What the GeoJSON argument schemas accept, stated as reference predicates on JSON values and
    proved in both directions, together with the issue lists of the common rejections. */
module GeoJsonFacts {
  import opened Wrappers
  import opened Json
  import opened GeoJsonSchema

  // ---------------------------------------------------------------------------------------------
  // Arrays

  lemma {:induction false} ItemsAccepted<T>(items: seq<Json>, start: nat, path: seq<PathElem>,
                                            elem: ElementCheck<T>)
    ensures CheckItems(items, start, path, elem).Accepted? <==>
      forall i :: 0 <= i < |items| ==> elem(Some(items[i]), path + [Index(start + i)]).Accepted?
    ensures CheckItems(items, start, path, elem).Accepted? ==>
      forall i :: 0 <= i < |items| ==>
        CheckItems(items, start, path, elem).value[i] == elem(Some(items[i]), path + [Index(start + i)]).value
    decreases |items|
  {
    if items != [] {
      ItemsAccepted(items[1..], start + 1, path, elem);
      forall i | 1 <= i < |items|
        ensures items[1..][i - 1] == items[i] && start + 1 + (i - 1) == start + i
      {
      }
    }
  }

  /** When every application of the element validator reports its rejections, so do the items. */
  lemma {:induction false} ItemsReported<T>(items: seq<Json>, start: nat, path: seq<PathElem>,
                                            elem: ElementCheck<T>)
    requires forall y, p :: Reported(elem(y, p))
    ensures Reported(CheckItems(items, start, path, elem))
    decreases |items|
  {
    if items != [] {
      ItemsReported(items[1..], start + 1, path, elem);
    }
  }

  /** An array is accepted iff it is an array, its length is within the bounds and every element
      is accepted; the output holds the elements' outputs, in order. */
  lemma ArrayAccepted<T>(x: Option<Json>, path: seq<PathElem>, min: nat, max: Option<nat>,
                         elem: ElementCheck<T>)
    ensures CheckArray(x, path, min, max, elem).Accepted? <==>
      x.Some? && x.value.JArr? && min <= |x.value.items| &&
      (max.None? || |x.value.items| <= max.value) &&
      forall i :: 0 <= i < |x.value.items| ==> elem(Some(x.value.items[i]), path + [Index(i)]).Accepted?
    ensures CheckArray(x, path, min, max, elem).Accepted? ==>
      |CheckArray(x, path, min, max, elem).value| == |x.value.items| &&
      forall i :: 0 <= i < |x.value.items| ==>
        CheckArray(x, path, min, max, elem).value[i] == elem(Some(x.value.items[i]), path + [Index(i)]).value
  {
    if x.Some? && x.value.JArr? {
      ItemsAccepted(x.value.items, 0, path, elem);
    }
  }

  /** The element issues follow the size issues: an array whose elements are all accepted is
      rejected with exactly its size issues. */
  lemma ArrayIssues<T>(x: Option<Json>, path: seq<PathElem>, min: nat, max: Option<nat>,
                       elem: ElementCheck<T>)
    requires forall y, p :: Reported(elem(y, p))
    ensures Reported(CheckArray(x, path, min, max, elem))
    ensures x.Some? && x.value.JArr? && CheckItems(x.value.items, 0, path, elem).Accepted? ==>
      IssuesOf(CheckArray(x, path, min, max, elem)) == SizeIssues(|x.value.items|, min, max, path)
  {
    if x.Some? && x.value.JArr? {
      ItemsReported(x.value.items, 0, path, elem);
    }
  }

  // ---------------------------------------------------------------------------------------------
  // Positions, rings and line strings

  /** RFC 7946 section 3.1.1 as the schema reads it: two or three numbers. */
  predicate IsPosition(v: Json)
  {
    v.JArr? && 2 <= |v.items| <= 3 && forall i :: 0 <= i < |v.items| ==> v.items[i].JNum?
  }

  lemma PositionAccepted(x: Option<Json>, path: seq<PathElem>)
    ensures CheckPosition(x, path).Accepted? <==> x.Some? && IsPosition(x.value)
    ensures CheckPosition(x, path).Accepted? ==>
      |CheckPosition(x, path).value| == |x.value.items| &&
      forall i :: 0 <= i < |x.value.items| ==> CheckPosition(x, path).value[i] == x.value.items[i].n
    ensures Reported(CheckPosition(x, path))
  {
    ArrayAccepted(x, path, 2, Some(3), (y, p) => CheckNumber(y, p));
    ArrayIssues(x, path, 2, Some(3), (y, p) => CheckNumber(y, p));
  }

  /** A position array of numbers that is too short or too long is rejected with exactly one
      size issue at the array's own path. */
  lemma PositionSizeIssue(items: seq<Json>, path: seq<PathElem>)
    requires forall i :: 0 <= i < |items| ==> items[i].JNum?
    ensures |items| < 2 ==>
      CheckPosition(Some(JArr(items)), path) == Rejected([Issue(path, TooSmall(ArrayLength, 2, true))])
    ensures |items| > 3 ==>
      CheckPosition(Some(JArr(items)), path) == Rejected([Issue(path, TooBig(ArrayLength, 3, true))])
  {
    var elem: ElementCheck<Decimal> := (y, p) => CheckNumber(y, p);
    ItemsAccepted(items, 0, path, elem);
    ArrayIssues(Some(JArr(items)), path, 2, Some(3), elem);
  }

  /** A linear ring: four positions or more, with no condition on its first and last positions. */
  predicate IsLinearRing(v: Json)
  {
    v.JArr? && |v.items| >= 4 && forall i :: 0 <= i < |v.items| ==> IsPosition(v.items[i])
  }

  lemma LinearRingAccepted(x: Option<Json>, path: seq<PathElem>)
    ensures CheckLinearRing(x, path).Accepted? <==> x.Some? && IsLinearRing(x.value)
    ensures Reported(CheckLinearRing(x, path))
  {
    forall y, p
      ensures CheckPosition(y, p).Accepted? <==> y.Some? && IsPosition(y.value)
      ensures Reported(CheckPosition(y, p))
    {
      PositionAccepted(y, p);
    }
    ArrayAccepted(x, path, 4, None, (y, p) => CheckPosition(y, p));
    ArrayIssues(x, path, 4, None, (y, p) => CheckPosition(y, p));
  }

  /** The ring [[0,0],[1,0],[1,1],[0,1]] does not return to its first position and is accepted. */
  lemma UnclosedRingAccepted(path: seq<PathElem>)
    ensures var zero := JNum(Decimal(0, 0));
            var one := JNum(Decimal(1, 0));
            var ring := [JArr([zero, zero]), JArr([one, zero]), JArr([one, one]), JArr([zero, one])];
            ring[0] != ring[3] && CheckLinearRing(Some(JArr(ring)), path).Accepted?
  {
    var zero := JNum(Decimal(0, 0));
    var one := JNum(Decimal(1, 0));
    var ring := [JArr([zero, zero]), JArr([one, zero]), JArr([one, one]), JArr([zero, one])];
    assert IsLinearRing(JArr(ring));
    LinearRingAccepted(Some(JArr(ring)), path);
  }

  predicate IsPolygonCoordinates(v: Json)
  {
    v.JArr? && forall i :: 0 <= i < |v.items| ==> IsLinearRing(v.items[i])
  }

  lemma PolygonCoordinatesAccepted(x: Option<Json>, path: seq<PathElem>)
    ensures CheckPolygonCoordinates(x, path).Accepted? <==> x.Some? && IsPolygonCoordinates(x.value)
    ensures Reported(CheckPolygonCoordinates(x, path))
  {
    forall y, p
      ensures CheckLinearRing(y, p).Accepted? <==> y.Some? && IsLinearRing(y.value)
      ensures Reported(CheckLinearRing(y, p))
    {
      LinearRingAccepted(y, p);
    }
    ArrayAccepted(x, path, 0, None, (y, p) => CheckLinearRing(y, p));
    ArrayIssues(x, path, 0, None, (y, p) => CheckLinearRing(y, p));
  }

  predicate IsLineStringCoordinates(v: Json)
  {
    v.JArr? && |v.items| >= 2 && forall i :: 0 <= i < |v.items| ==> IsPosition(v.items[i])
  }

  lemma LineStringCoordinatesAccepted(x: Option<Json>, path: seq<PathElem>)
    ensures CheckLineStringCoordinates(x, path).Accepted? <==> x.Some? && IsLineStringCoordinates(x.value)
    ensures Reported(CheckLineStringCoordinates(x, path))
  {
    forall y, p
      ensures CheckPosition(y, p).Accepted? <==> y.Some? && IsPosition(y.value)
      ensures Reported(CheckPosition(y, p))
    {
      PositionAccepted(y, p);
    }
    ArrayAccepted(x, path, 2, None, (y, p) => CheckPosition(y, p));
    ArrayIssues(x, path, 2, None, (y, p) => CheckPosition(y, p));
  }

  // ---------------------------------------------------------------------------------------------
  // Geometries

  lemma TaggedGeometryAccepted<C>(x: Option<Json>, path: seq<PathElem>, tag: string,
                                  coordinates: ElementCheck<C>, build: C -> Geometry)
    ensures CheckTaggedGeometry(x, path, tag, coordinates, build).Accepted? <==>
      IsObject(x) && Field(x, "type") == Some(JStr(tag)) &&
      coordinates(Field(x, "coordinates"), path + [Key("coordinates")]).Accepted?
    ensures CheckTaggedGeometry(x, path, tag, coordinates, build).Accepted? ==>
      CheckTaggedGeometry(x, path, tag, coordinates, build).value ==
        build(coordinates(Field(x, "coordinates"), path + [Key("coordinates")]).value)
    ensures (forall y, p :: Reported(coordinates(y, p))) ==>
      Reported(CheckTaggedGeometry(x, path, tag, coordinates, build))
  {
  }

  /** The object fields of a geometry: an object whose `type` is the literal `tag` and which has `coordinates`. */
  predicate IsTagged(v: Json, tag: string)
  {
    v.JObj? && Get(v.members, "type") == Some(JStr(tag)) && Get(v.members, "coordinates").Some?
  }

  predicate IsPointGeometry(v: Json)
  {
    IsTagged(v, "Point") && IsPosition(Get(v.members, "coordinates").value)
  }

  predicate IsPolygonGeometry(v: Json)
  {
    IsTagged(v, "Polygon") && IsPolygonCoordinates(Get(v.members, "coordinates").value)
  }

  predicate IsLineStringGeometry(v: Json)
  {
    IsTagged(v, "LineString") && IsLineStringCoordinates(Get(v.members, "coordinates").value)
  }

  /** What the catch-all arm asks: an object whose `type` is a string. */
  predicate IsAnyGeometry(v: Json)
  {
    v.JObj? && Get(v.members, "type").Some? && Get(v.members, "type").value.JStr?
  }

  lemma PointGeometryAccepted(x: Option<Json>, path: seq<PathElem>)
    ensures CheckPointGeometry(x, path).Accepted? <==> x.Some? && IsPointGeometry(x.value)
    ensures CheckPointGeometry(x, path).Accepted? ==>
      CheckPointGeometry(x, path).value == PointGeometry(CheckPosition(Field(x, "coordinates"), path + [Key("coordinates")]).value)
    ensures Reported(CheckPointGeometry(x, path))
  {
    forall y, p
      ensures CheckPosition(y, p).Accepted? <==> y.Some? && IsPosition(y.value)
      ensures Reported(CheckPosition(y, p))
    {
      PositionAccepted(y, p);
    }
    TaggedGeometryAccepted(x, path, "Point", (y, p) => CheckPosition(y, p), c => PointGeometry(c));
  }

  lemma PolygonGeometryAccepted(x: Option<Json>, path: seq<PathElem>)
    ensures CheckPolygonGeometry(x, path).Accepted? <==> x.Some? && IsPolygonGeometry(x.value)
    ensures CheckPolygonGeometry(x, path).Accepted? ==> CheckPolygonGeometry(x, path).value.PolygonGeometry?
    ensures Reported(CheckPolygonGeometry(x, path))
  {
    forall y, p
      ensures CheckPolygonCoordinates(y, p).Accepted? <==> y.Some? && IsPolygonCoordinates(y.value)
      ensures Reported(CheckPolygonCoordinates(y, p))
    {
      PolygonCoordinatesAccepted(y, p);
    }
    TaggedGeometryAccepted(x, path, "Polygon", (y, p) => CheckPolygonCoordinates(y, p), c => PolygonGeometry(c));
  }

  lemma LineStringGeometryAccepted(x: Option<Json>, path: seq<PathElem>)
    ensures CheckLineStringGeometry(x, path).Accepted? <==> x.Some? && IsLineStringGeometry(x.value)
    ensures CheckLineStringGeometry(x, path).Accepted? ==> CheckLineStringGeometry(x, path).value.LineStringGeometry?
    ensures Reported(CheckLineStringGeometry(x, path))
  {
    forall y, p
      ensures CheckLineStringCoordinates(y, p).Accepted? <==> y.Some? && IsLineStringCoordinates(y.value)
      ensures Reported(CheckLineStringCoordinates(y, p))
    {
      LineStringCoordinatesAccepted(y, p);
    }
    TaggedGeometryAccepted(x, path, "LineString", (y, p) => CheckLineStringCoordinates(y, p), c => LineStringGeometry(c));
  }

  /** The generic geometry schema accepts exactly the objects whose `type` is a string, whatever
      their coordinates; a well-formed Point, Polygon or LineString is parsed by its own arm, and
      anything else by the catch-all arm. */
  lemma GenericGeometryAccepted(x: Option<Json>, path: seq<PathElem>)
    ensures CheckGenericGeometry(x, path).Accepted? <==> x.Some? && IsAnyGeometry(x.value)
    ensures x.Some? && IsPointGeometry(x.value) ==> CheckGenericGeometry(x, path) == CheckPointGeometry(x, path)
    ensures x.Some? && IsPolygonGeometry(x.value) ==> CheckGenericGeometry(x, path) == CheckPolygonGeometry(x, path)
    ensures x.Some? && IsLineStringGeometry(x.value) ==> CheckGenericGeometry(x, path) == CheckLineStringGeometry(x, path)
    ensures x.Some? && IsAnyGeometry(x.value) && !IsPointGeometry(x.value) && !IsPolygonGeometry(x.value) &&
            !IsLineStringGeometry(x.value) ==>
      CheckGenericGeometry(x, path) ==
        Accepted(OtherGeometry(Get(x.value.members, "type").value.s, Get(x.value.members, "coordinates")))
    ensures Reported(CheckGenericGeometry(x, path))
  {
    PointGeometryAccepted(x, path);
    PolygonGeometryAccepted(x, path);
    LineStringGeometryAccepted(x, path);
  }

  /** A Point geometry whose coordinates are not a valid position is rejected by the Point arm but
      accepted by the catch-all arm, which keeps its coordinates unchecked. */
  lemma MalformedPointIsOther(v: Json, path: seq<PathElem>)
    requires v.JObj? && Get(v.members, "type") == Some(JStr("Point"))
    requires !(Get(v.members, "coordinates").Some? && IsPosition(Get(v.members, "coordinates").value))
    ensures CheckPointGeometry(Some(v), path).Rejected?
    ensures CheckGenericGeometry(Some(v), path) == Accepted(OtherGeometry("Point", Get(v.members, "coordinates")))
  {
    GenericGeometryAccepted(Some(v), path);
  }

  // ---------------------------------------------------------------------------------------------
  // Features

  predicate IsPropertiesValue(x: Option<Json>)
  {
    x.None? || x.value.JNull? || x.value.JObj?
  }

  /** The fields of a Feature other than its geometry: the "Feature" tag and the properties. */
  predicate IsFeatureEnvelope(v: Json)
  {
    v.JObj? && Get(v.members, "type") == Some(JStr("Feature")) && IsPropertiesValue(Get(v.members, "properties"))
  }

  predicate IsPointFeature(v: Json)
  {
    IsFeatureEnvelope(v) && Get(v.members, "geometry").Some? && IsPointGeometry(Get(v.members, "geometry").value)
  }

  predicate IsPolygonFeature(v: Json)
  {
    IsFeatureEnvelope(v) && Get(v.members, "geometry").Some? && IsPolygonGeometry(Get(v.members, "geometry").value)
  }

  predicate IsGenericFeature(v: Json)
  {
    IsFeatureEnvelope(v) && Get(v.members, "geometry").Some? && IsAnyGeometry(Get(v.members, "geometry").value)
  }

  lemma FeatureObjectAccepted(x: Option<Json>, path: seq<PathElem>, geometry: ElementCheck<Geometry>)
    ensures CheckFeatureObject(x, path, geometry).Accepted? <==>
      x.Some? && IsFeatureEnvelope(x.value) && geometry(Field(x, "geometry"), path + [Key("geometry")]).Accepted?
    ensures CheckFeatureObject(x, path, geometry).Accepted? ==>
      CheckFeatureObject(x, path, geometry).value ==
        Feature(geometry(Field(x, "geometry"), path + [Key("geometry")]).value,
                CheckProperties(Field(x, "properties"), path + [Key("properties")]).value)
    ensures (forall y, p :: Reported(geometry(y, p))) ==> Reported(CheckFeatureObject(x, path, geometry))
  {
  }

  /** A Point Feature is accepted iff, after the preprocessing step, it has the "Feature" tag, a
      Point geometry with a valid position and absent, null or record properties. */
  lemma PointFeatureAccepted(x: Option<Json>, path: seq<PathElem>)
    ensures CheckPointFeature(x, path).Accepted? <==>
      ParseJsonString(x).Some? && IsPointFeature(ParseJsonString(x).value)
    ensures CheckPointFeature(x, path).Accepted? ==> CheckPointFeature(x, path).value.geometry.PointGeometry?
    ensures Reported(CheckPointFeature(x, path))
  {
    forall y, p
      ensures CheckPointGeometry(y, p).Accepted? <==> y.Some? && IsPointGeometry(y.value)
      ensures CheckPointGeometry(y, p).Accepted? ==> CheckPointGeometry(y, p).value.PointGeometry?
      ensures Reported(CheckPointGeometry(y, p))
    {
      PointGeometryAccepted(y, p);
    }
    FeatureObjectAccepted(ParseJsonString(x), path, (y, p) => CheckPointGeometry(y, p));
  }

  lemma PolygonFeatureAccepted(x: Option<Json>, path: seq<PathElem>)
    ensures CheckPolygonFeature(x, path).Accepted? <==>
      ParseJsonString(x).Some? && IsPolygonFeature(ParseJsonString(x).value)
    ensures CheckPolygonFeature(x, path).Accepted? ==> CheckPolygonFeature(x, path).value.geometry.PolygonGeometry?
    ensures Reported(CheckPolygonFeature(x, path))
  {
    forall y, p
      ensures CheckPolygonGeometry(y, p).Accepted? <==> y.Some? && IsPolygonGeometry(y.value)
      ensures CheckPolygonGeometry(y, p).Accepted? ==> CheckPolygonGeometry(y, p).value.PolygonGeometry?
      ensures Reported(CheckPolygonGeometry(y, p))
    {
      PolygonGeometryAccepted(y, p);
    }
    FeatureObjectAccepted(ParseJsonString(x), path, (y, p) => CheckPolygonGeometry(y, p));
  }

  lemma GenericFeatureAccepted(x: Option<Json>, path: seq<PathElem>)
    ensures CheckGenericFeature(x, path).Accepted? <==>
      ParseJsonString(x).Some? && IsGenericFeature(ParseJsonString(x).value)
    ensures Reported(CheckGenericFeature(x, path))
  {
    forall y, p
      ensures CheckGenericGeometry(y, p).Accepted? <==> y.Some? && IsAnyGeometry(y.value)
      ensures Reported(CheckGenericGeometry(y, p))
    {
      GenericGeometryAccepted(y, p);
    }
    FeatureObjectAccepted(ParseJsonString(x), path, (y, p) => CheckGenericGeometry(y, p));
  }

  // ---------------------------------------------------------------------------------------------
  // The preprocessing step and the Feature schemas

  /** A Feature argument given as its JSON text is validated exactly as the value itself (except a
      string value, whose text would itself be parsed once more). */
  lemma StringifiedFeature(v: Json, path: seq<PathElem>)
    requires !v.JStr?
    ensures ParseJsonString(Some(JStr(Encode(v)))) == ParseJsonString(Some(v))
    ensures CheckPointFeature(Some(JStr(Encode(v))), path) == CheckPointFeature(Some(v), path)
    ensures CheckPolygonFeature(Some(JStr(Encode(v))), path) == CheckPolygonFeature(Some(v), path)
    ensures CheckGenericFeature(Some(JStr(Encode(v))), path) == CheckGenericFeature(Some(v), path)
  {
    ParseJsonStringOfText(v);
  }

  /** Whatever the preprocessing step leaves that is not an object is rejected with one type
      issue at the argument's own path. */
  lemma NonObjectFeature(x: Option<Json>, path: seq<PathElem>)
    requires !IsObject(ParseJsonString(x))
    ensures CheckPointFeature(x, path) == Rejected([Issue(path, InvalidType("object", TypeOf(ParseJsonString(x))))])
    ensures CheckPolygonFeature(x, path) == Rejected([Issue(path, InvalidType("object", TypeOf(ParseJsonString(x))))])
    ensures CheckGenericFeature(x, path) == Rejected([Issue(path, InvalidType("object", TypeOf(ParseJsonString(x))))])
  {
  }

  /** A string that is not JSON text stays a string and is rejected as one. */
  lemma NotJsonTextFeature(s: string, path: seq<PathElem>)
    requires Parse(s).None?
    ensures CheckPointFeature(Some(JStr(s)), path) == Rejected([Issue(path, InvalidType("object", TString))])
    ensures CheckPolygonFeature(Some(JStr(s)), path) == Rejected([Issue(path, InvalidType("object", TString))])
    ensures CheckGenericFeature(Some(JStr(s)), path) == Rejected([Issue(path, InvalidType("object", TString))])
  {
    NonObjectFeature(Some(JStr(s)), path);
  }

  /** The preprocessing step parses once: a Feature stringified twice reads back as a string and is
      rejected. */
  lemma TwiceStringifiedFeature(v: Json, path: seq<PathElem>)
    ensures CheckPointFeature(Some(JStr(Encode(JStr(Encode(v))))), path) ==
      Rejected([Issue(path, InvalidType("object", TString))])
  {
    ParseJsonStringOfText(JStr(Encode(v)));
    NonObjectFeature(Some(JStr(Encode(JStr(Encode(v))))), path);
  }
}

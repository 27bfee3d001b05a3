# Geo agentic starter kit: tool arguments, menu dock, result panel and address search

This project models the core of the GeoRetina geo agentic starter kit. The kit is a map page on
which a user draws geometry and runs measurements on it from a menu dock. It also defines four
geospatial tools for a chat model. The chat route as it stands (app/api/chat/route.ts:10-15)
does not pass them to the model, so the tools are modelled as defined, under the `ai` runtime's
rule of validating arguments before running `execute`.

The model covers four pieces of that code:

- **The chat model's tools** (`features/ai-assistant/lib/tools.ts`), in three modules.
  - `GeoJsonSchema` holds the argument schemas, with the issue lists that zod 3.23 and later 3.x versions report.
    - A tolerant preprocessing step replaces a JSON-text string by the value it encodes.
      `Json` is the JSON text parser behind that step, with an encoder and a round trip.
    - Validators for positions, linear rings, Point / Polygon / LineString geometries, the generic
      four-arm geometry union and the three Feature schemas.
  - `GeoJsonFacts` states what each schema accepts as a reference predicate on JSON values, and
    proves each in both directions.
  - `GeoTools` covers the unit enumeration with its per-tool defaults, the positive radius, the
    four `execute` bodies, and the tool runtime's rule that arguments are validated before
    `execute` runs. The measurement functions are a `Library` value of functions that return a
    result or throw.
- **The menu dock** (`features/map-menu-dock/components/map-menu-dock.tsx`), in `MapMenuDock`.
  - The enable and variant rules for each analysis button.
  - The class `Dock`, holding the buffer radius and the two popover flags.
- **The analysis result panel** (`features/map-display/components/analysis-result.tsx`), in
  `AnalysisResult`: what the panel shows, as a function of its properties.
- **The address search box** (`features/geocoding/components/AddressSearch.tsx`), in `AddressSearch`.
  - The JavaScript `trim` guard.
  - The request parameters.
  - The interpretation of the geocoder's response, including the bbox to bounds conversion.
  - The class `SearchBox`, holding the query and the loading and error flags. One search is split
    at its `await` into `BeginSearch` and `CompleteSearch`.
  - The parent's `onSearchResult` and `onClose` callbacks, which run inside the same `try` as the
    request: a throw from either is shown as the error (`Finish`).

Some behaviours of the code are easy to misread. The model has them as the code does:

- **Ring closure is not checked.** GeoJSON (section 3.1.6 of RFC 7946) asks that a linear ring's
  first and last positions be equal. The schema (tools.ts:48-53) only describes that rule and
  checks only the length (at least 4). `GeoJsonFacts.UnclosedRingAccepted` exhibits an open
  ring that is accepted.
- **Every issue is reported.** Validation does not stop at the first violated rule. zod (3.23
  and later 3.x versions, where a preprocessed schema runs even after an earlier field failed)
  reports every issue across all object fields and array elements: size issues come before the
  element issues, and fields are reported in schema order.
- **Invalid arguments never reach `execute`.** The tool runtime validates the arguments first,
  so `execute` never sees invalid ones and never turns them into an `{ error }` payload. The
  model calls that outcome `ArgumentsRejected(issues)`. Only measurement failures become
  `{ error }`.
- **The centroid button needs a Polygon.** The centroid tool accepts any Feature, but the dock
  enables Centroid only for a Polygon (map-menu-dock.tsx:166), never for a LineString.
- **The generic geometry accepts more.** The catch-all union arm takes any object whose `type`
  is a string. A malformed Point, for example one with a single coordinate, is therefore
  accepted as an "other" geometry (`GeoJsonFacts.MalformedPointIsOther`).

## Model

| member | source | states |
|---|---|---|
| JsonRoundTrip.ParseEncode | features/ai-assistant/lib/tools.ts:16 | `JSON.parse` of the JSON text of any value gives back that value (parser and encoder are inverse) |
| Json.Get | features/ai-assistant/lib/tools.ts:16 | a key's value in a parsed object is that of its last occurrence; absent exactly when no member has the key |
| GeoJsonSchema.ParseJsonString | features/ai-assistant/lib/tools.ts:13-22 | a non-string passes unchanged; a string that is not JSON text passes unchanged; other strings become the parsed value |
| GeoJsonSchema.ParseJsonStringOfText | features/ai-assistant/lib/tools.ts:13-22 | the preprocessing step turns the JSON text of a value back into that value |
| GeoJsonSchema.TypeOf | features/ai-assistant/lib/tools.ts:25-36 | the received type reported in type issues: undefined exactly for an absent key, and null, boolean, number, string, array and object exactly for those values |
| GeoJsonSchema.CheckLiteral | features/ai-assistant/lib/tools.ts:34 | accepts exactly the literal string; otherwise one invalid-literal issue carrying the received value |
| GeoJsonSchema.CheckString | features/ai-assistant/lib/tools.ts:87 | accepts exactly strings, returning the text; otherwise one type issue expecting "string" |
| GeoJsonSchema.CheckNumber | features/ai-assistant/lib/tools.ts:28 | accepts exactly numbers, returning the number; otherwise one type issue expecting "number" |
| GeoJsonSchema.CheckItems | features/ai-assistant/lib/tools.ts:27-30 | an accepted element list has one output per element |
| GeoJsonSchema.SizeIssues | features/ai-assistant/lib/tools.ts:29-30 | no size issue exactly when the length is within the minimum and the maximum |
| GeoJsonSchema.CheckAnyGeometry | features/ai-assistant/lib/tools.ts:87 | the catch-all arm accepts exactly the objects whose `type` is a string |
| GeoJsonSchema.CheckGenericGeometry | features/ai-assistant/lib/tools.ts:82-88 | a rejection is one invalid-union issue carrying the four arms' issues in order |
| GeoJsonSchema.CheckProperties | features/ai-assistant/lib/tools.ts:25 | properties are accepted exactly when absent, null or an object; otherwise one type issue expecting "object" |
| GeoJsonFacts.ItemsAccepted | features/ai-assistant/lib/tools.ts:27-28 | elements are accepted iff each element is accepted at its own index path; the outputs are the elements' outputs in order |
| GeoJsonFacts.ItemsReported | features/ai-assistant/lib/tools.ts:27-28 | a rejected element list carries at least one issue |
| GeoJsonFacts.ArrayAccepted | features/ai-assistant/lib/tools.ts:27-30 | an array schema accepts iff the value is an array within the length bounds whose every element is accepted |
| GeoJsonFacts.ArrayIssues | features/ai-assistant/lib/tools.ts:27-30 | an array whose elements all pass is rejected with exactly its size issues |
| GeoJsonFacts.PositionAccepted | features/ai-assistant/lib/tools.ts:27-31 | a position is accepted iff it is an array of 2 or 3 numbers; the output is those numbers |
| GeoJsonFacts.PositionSizeIssue | features/ai-assistant/lib/tools.ts:29-30 | too few numbers give exactly one too-small(2) issue; too many give exactly one too-big(3) issue |
| GeoJsonFacts.LinearRingAccepted | features/ai-assistant/lib/tools.ts:48-53 | a ring is accepted iff it is an array of at least 4 valid positions |
| GeoJsonFacts.UnclosedRingAccepted | features/ai-assistant/lib/tools.ts:48-53 | a ring whose last position differs from its first is accepted: closure is not checked |
| GeoJsonFacts.PolygonCoordinatesAccepted | features/ai-assistant/lib/tools.ts:55-59 | polygon coordinates are accepted iff they are an array of valid rings |
| GeoJsonFacts.LineStringCoordinatesAccepted | features/ai-assistant/lib/tools.ts:76 | line coordinates are accepted iff they are an array of at least 2 valid positions |
| GeoJsonFacts.TaggedGeometryAccepted | features/ai-assistant/lib/tools.ts:33-36 | a geometry object is accepted iff it is an object with the right `type` literal and accepted coordinates |
| GeoJsonFacts.PointGeometryAccepted | features/ai-assistant/lib/tools.ts:33-36 | a Point geometry is accepted iff `type` is "Point" and `coordinates` is a valid position, which becomes the output |
| GeoJsonFacts.PolygonGeometryAccepted | features/ai-assistant/lib/tools.ts:61-64 | a Polygon geometry is accepted iff `type` is "Polygon" and its coordinates are valid rings |
| GeoJsonFacts.LineStringGeometryAccepted | features/ai-assistant/lib/tools.ts:76-80 | a LineString geometry is accepted iff `type` is "LineString" and it has at least 2 valid positions |
| GeoJsonFacts.GenericGeometryAccepted | features/ai-assistant/lib/tools.ts:82-88 | the union accepts iff the object's `type` is a string; a valid Point, Polygon or LineString takes its own arm, anything else the catch-all |
| GeoJsonFacts.MalformedPointIsOther | features/ai-assistant/lib/tools.ts:82-88 | a "Point" with invalid coordinates fails the Point arm and is accepted by the catch-all with the raw coordinates |
| GeoJsonFacts.FeatureObjectAccepted | features/ai-assistant/lib/tools.ts:38-42 | a Feature object is accepted iff its tag is "Feature", its geometry passes and its properties pass; the output pairs them |
| GeoJsonFacts.PointFeatureAccepted | features/ai-assistant/lib/tools.ts:25-46 | a Point Feature is accepted iff, after preprocessing, it is a "Feature" with a valid Point geometry and absent, null or object properties |
| GeoJsonFacts.PolygonFeatureAccepted | features/ai-assistant/lib/tools.ts:66-74 | a Polygon Feature is accepted iff, after preprocessing, it is a "Feature" with a valid Polygon geometry and valid properties |
| GeoJsonFacts.GenericFeatureAccepted | features/ai-assistant/lib/tools.ts:90-100 | a generic Feature is accepted iff, after preprocessing, it is a "Feature" whose geometry has a string `type` |
| GeoJsonFacts.StringifiedFeature | features/ai-assistant/lib/tools.ts:44-46 | a non-string value and its JSON text are validated identically by all three Feature schemas |
| GeoJsonFacts.NonObjectFeature | features/ai-assistant/lib/tools.ts:44-46 | whatever preprocessing leaves that is not an object is rejected with exactly one type issue at the argument's path |
| GeoJsonFacts.NotJsonTextFeature | features/ai-assistant/lib/tools.ts:17-18 | a string that is not JSON text is rejected as a string, not accepted |
| GeoJsonFacts.TwiceStringifiedFeature | features/ai-assistant/lib/tools.ts:13-22 | preprocessing parses once only: a twice-encoded Feature is rejected as a string |
| GeoTools.CheckUnits | features/ai-assistant/lib/tools.ts:126-131 | an absent unit becomes the default; present values are accepted iff they name a unit; other strings give an enum issue, other values a type issue |
| GeoTools.UnitNameAccepted | features/ai-assistant/lib/constants.ts:5 | each unit's name is accepted as that unit |
| GeoTools.UnitsArgumentAccepted | features/ai-assistant/lib/tools.ts:126-131 | units are accepted iff absent, "kilometers" or "meters" |
| GeoTools.CheckRadius | features/ai-assistant/lib/tools.ts:154-157 | a radius is accepted iff it is a number strictly above 0; a non-positive number gives exactly one too-small(0, exclusive) issue |
| GeoTools.ErrorMessage | features/ai-assistant/lib/tools.ts:114-116 | an Error's own message, and "Calculation failed" for anything else thrown |
| GeoTools.ExecuteArea | features/ai-assistant/lib/tools.ts:109-118 | an error exactly when the measurement threw, carrying its message; a returned area becomes the area payload |
| GeoTools.ExecuteDistance | features/ai-assistant/lib/tools.ts:134-147 | an error exactly when the measurement threw; a returned distance becomes the distance payload with the unit it was measured in |
| GeoTools.ExecuteBuffer | features/ai-assistant/lib/tools.ts:166-182 | an error exactly when the buffer threw or returned a falsy value (undefined, null, false, 0, ""), the falsy ones giving "Buffer creation resulted in undefined feature."; any other returned value becomes the buffer payload |
| GeoTools.ExecuteCentroid | features/ai-assistant/lib/tools.ts:191-200 | an error exactly when the measurement threw, carrying its message; a returned centroid becomes the centroid payload |
| GeoTools.AreaToolRuns | features/ai-assistant/lib/tools.ts:103-108 | the area tool executes iff `polygon`, after preprocessing, is a valid Polygon Feature; a rejection carries issues |
| GeoTools.DistanceToolRuns | features/ai-assistant/lib/tools.ts:121-133 | distance executes iff both points are valid Point Features and `units` is absent or a unit name |
| GeoTools.BufferToolRuns | features/ai-assistant/lib/tools.ts:150-165 | buffer executes iff the point is valid, the radius a positive number and the units valid |
| GeoTools.CentroidToolRuns | features/ai-assistant/lib/tools.ts:185-190 | centroid executes iff `feature` is a valid generic Feature |
| GeoTools.DistanceDefaultsToKilometers | features/ai-assistant/lib/tools.ts:126-131 | without `units` the distance is measured in kilometers, and a successful measurement is reported with kilometers |
| GeoTools.DistanceEchoesUnit | features/ai-assistant/lib/tools.ts:141 | with a named unit the distance is measured in it, and a successful measurement returns the distance together with that unit |
| GeoTools.BufferDefaultsToMeters | features/ai-assistant/lib/tools.ts:158-164 | without `units` the buffer radius is taken in meters |
| GeoTools.NonPositiveRadiusRejected | features/ai-assistant/lib/tools.ts:154-157 | a radius of 0 or below never reaches the buffer; the call carries a too-small issue at `radius` |
| GeoTools.AreaArgsAfterPreprocessing | features/ai-assistant/lib/tools.ts:106-108 | the area arguments depend on `polygon` only through its preprocessed value |
| GeoTools.DistanceArgsAfterPreprocessing | features/ai-assistant/lib/tools.ts:123-133 | the distance arguments depend on the points only through their preprocessed values |
| GeoTools.BufferArgsAfterPreprocessing | features/ai-assistant/lib/tools.ts:151-165 | the buffer arguments depend on the point only through its preprocessed value |
| GeoTools.CentroidArgsAfterPreprocessing | features/ai-assistant/lib/tools.ts:188-190 | the centroid arguments depend on `feature` only through its preprocessed value |
| GeoTools.StringifiedPolygonArgument | features/ai-assistant/lib/tools.ts:72-74 | the area tool does the same with a Feature as with its JSON text |
| GeoTools.StringifiedPointArguments | features/ai-assistant/lib/tools.ts:44-46 | the distance tool does the same with the points as with their JSON texts |
| GeoTools.StringifiedBufferArgument | features/ai-assistant/lib/tools.ts:44-46 | the buffer tool does the same with the point as with its JSON text |
| GeoTools.StringifiedFeatureArgument | features/ai-assistant/lib/tools.ts:96-100 | the centroid tool does the same with the feature as with its JSON text |
| GeoTools.NonJsonPolygonRejected | features/ai-assistant/lib/tools.ts:17-18 | a non-JSON string as `polygon` is rejected with one type issue at `polygon` |
| MapMenuDock.EnabledMatchesTable | features/map-menu-dock/components/map-menu-dock.tsx:101-166 | a button is enabled iff its operation is in the table: Point→Buffer, LineString→Distance, Polygon→Area and Centroid |
| MapMenuDock.VariantMatchesEnabled | features/map-menu-dock/components/map-menu-dock.tsx:101-104 | each button is "secondary" exactly when enabled, "ghost" otherwise |
| MapMenuDock.NothingSelectedDisablesAll | features/map-menu-dock/components/map-menu-dock.tsx:15 | with no selection, or a type with no operation, every button is disabled |
| MapMenuDock.AtMostOneMeasurement | features/map-menu-dock/components/map-menu-dock.tsx:101-166 | at most one of Buffer, Distance and Area is enabled |
| MapMenuDock.CentroidOnlyForPolygon | features/map-menu-dock/components/map-menu-dock.tsx:156-166 | Area and Centroid are enabled together, exactly for a Polygon; never for a LineString |
| MapMenuDock.Dock.constructor | features/map-menu-dock/components/map-menu-dock.tsx:31-33 | the radius starts at 1 and both popovers start closed |
| MapMenuDock.Dock.SubmitBuffer | features/map-menu-dock/components/map-menu-dock.tsx:35-38 | asks for a buffer of the current radius and closes the buffer popover; nothing else changes |
| MapMenuDock.Dock.ChangeRadius | features/map-menu-dock/components/map-menu-dock.tsx:126-128 | the radius becomes the parsed input; the popovers are unchanged |
| MapMenuDock.Dock.SetBufferPopoverOpen | features/map-menu-dock/components/map-menu-dock.tsx:95-98 | sets the buffer popover flag only |
| MapMenuDock.Dock.SetSearchPopoverOpen | features/map-menu-dock/components/map-menu-dock.tsx:44-47 | sets the search popover flag only |
| MapMenuDock.Dock.PressBufferTrigger | features/map-menu-dock/components/map-menu-dock.tsx:99-108 | an enabled Buffer trigger toggles its popover; a disabled one changes nothing |
| MapMenuDock.Dock.PressOperation | features/map-menu-dock/components/map-menu-dock.tsx:144-173 | a Distance, Area or Centroid press fires its request iff the button is enabled |
| AnalysisResult.Render | features/map-display/components/analysis-result.tsx:15-47 | a panel is shown exactly when visible |
| AnalysisResult.HiddenShowsNothing | features/map-display/components/analysis-result.tsx:22 | a hidden panel shows nothing whatever the other properties |
| AnalysisResult.HeaderIsTitle | features/map-display/components/analysis-result.tsx:28 | the header is the title verbatim |
| AnalysisResult.MissingValue | features/map-display/components/analysis-result.tsx:41 | a null value reads "N/A" |
| AnalysisResult.ValueWithUnit | features/map-display/components/analysis-result.tsx:19-41 | a non-empty unit gives value, space, unit; an absent or empty one gives the value alone |
| AnalysisResult.ValueLineSplits | features/map-display/components/analysis-result.tsx:41 | the value line starts with the value's text and is longer exactly when a non-empty unit follows after one space |
| AddressSearch.TrimStart | features/geocoding/components/AddressSearch.tsx:34 | removes exactly the leading white space: a suffix not starting with white space |
| AddressSearch.TrimEnd | features/geocoding/components/AddressSearch.tsx:34 | removes exactly the trailing white space: a prefix not ending with white space |
| AddressSearch.BlankIffTrimmedEmpty | features/geocoding/components/AddressSearch.tsx:34 | the trimmed query is empty iff the query is white space only |
| AddressSearch.SearchParams | features/geocoding/components/AddressSearch.tsx:39-44 | q is the query, then format=geojson, limit=1, addressdetails=1 |
| AddressSearch.BoundsOf | features/geocoding/components/AddressSearch.tsx:63-74 | bounds exist iff the bbox is present with exactly 4 entries |
| AddressSearch.BboxOf | features/geocoding/components/AddressSearch.tsx:71-74 | the bbox of bounds has four entries |
| AddressSearch.BoundsRoundTrip | features/geocoding/components/AddressSearch.tsx:71-74 | bbox [a,b,c,d] and bounds [[a,b],[c,d]] correspond one to one |
| AddressSearch.FailureText | features/geocoding/components/AddressSearch.tsx:85 | a failure's non-empty message is set as the error; a failure without one sets "Failed to fetch address."; a thrown null or undefined sets nothing, since reading its `message` throws |
| AddressSearch.InterpretCases | features/geocoding/components/AddressSearch.tsx:50-85 | bounds exactly for a first result with a 4-entry bbox; a rejected fetch or unreadable body sets its failure text; "Nominatim API error: " + status for a non-OK response; "Address not found." for no results; "Could not determine location bounds." for a bad bbox |
| AddressSearch.Finish | features/geocoding/components/AddressSearch.tsx:78-88 | a failure sets its error and calls nothing; a located address calls `onSearchResult` with the bounds, then `onClose` only if that returned; no error is set when both returned, else the failure text of the first throw |
| AddressSearch.FinishWithQuietParent | features/geocoding/components/AddressSearch.tsx:78-82 | with callbacks that return, a located address sends the bounds then the close request and shows no error; a failure sends nothing |
| AddressSearch.SearchEffect | features/geocoding/components/AddressSearch.tsx:33-89 | a blank query changes nothing; any other search ends not loading, with the error and the callbacks of `Finish` for the geocoder's answer |
| AddressSearch.SearchBox.constructor | features/geocoding/components/AddressSearch.tsx:29-31 | an empty query, not loading, no error |
| AddressSearch.SearchBox.SetQuery | features/geocoding/components/AddressSearch.tsx:111 | the query becomes the typed text, nothing else changes |
| AddressSearch.SearchBox.BeginSearch | features/geocoding/components/AddressSearch.tsx:34-44 | a blank query sends nothing and changes nothing; otherwise loading starts, the error clears and the request is sent |
| AddressSearch.SearchBox.CompleteSearch | features/geocoding/components/AddressSearch.tsx:53-88 | loading ends whatever the response; the error and the callbacks called are those of `Finish` for the response |
| AddressSearch.SearchBox.HandleSearch | features/geocoding/components/AddressSearch.tsx:33-89 | the new state and the events are those of `SearchEffect` for the old state |
| AddressSearch.SearchBox.KeyPress | features/geocoding/components/AddressSearch.tsx:91-95 | Enter has the same effect as the search button; any other key does nothing |

## Left out

- The measurements of `turf-utils` (area, distance, buffer, centroid) are not part of this model.
  They are the fields of `Library`: functions that return a value or throw.
- Numbers are exact decimals. The rounding of JSON numbers to doubles is not modelled. A
  literal too large for a double, such as 1e400, reads as Infinity, which the positive radius
  accepts just as it accepts the exact decimal. A literal that rounds to 0, such as 1e-400, is
  rejected as a radius by the code but accepted by `GeoTools.CheckRadius`.
- JSON text containing a `\u` escape of a lone surrogate is rejected by `Json.Parse`.
  `JSON.parse` accepts it, but a Dafny string cannot hold the result.
- The properties record keeps the object's members as parsed. The key order and deduplication of
  the JavaScript object that zod copies are not modelled.
- The text of zod's issue messages is not modelled; each issue keeps only its code, path and
  parameters.
- The chat route does not register the tools. The tool runtime's own argument parsing, the tool
  descriptions and the chat transport live in the `ai` package and the chat route. They are not
  part of this model.
- The address search's `fetch`, URL building and User-Agent header are left out. The geocoder is
  the `network` parameter, from request parameters to a `Response`. A response body that is not
  an object is not modelled.
- The console logging in the address search is left out.
- AddressSearch.FailureText: a thrown value whose `message` is truthy but not a string (a number,
  an object) is not modelled, because `Thrown` carries a message only as a string. The code would
  store that value as the error.
- When the catch block of the address search itself throws (a thrown `null` or `undefined`),
  `handleSearch`'s promise is rejected with nobody awaiting it. The model keeps only the state it
  leaves: loading ended and no error set.
- `parseFloat` of the radius input is left out; `Dock.ChangeRadius` takes the parsed number.
- The analysis panel's close control only forwards the click to `onClose`. It is not modelled.
- A number shown in the panel is written out by the page's number-to-text conversion, passed to
  `Render` as `numberText`.
- The selection tracking and analysis hooks wired in `features/map-display/components/map-display.tsx`
  are not part of this model.
- The disabled state of the search input and button while loading is not modelled.
- The nested tools popover of the dock keeps its own uncontrolled open state, which is not modelled.

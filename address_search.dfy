/** The address search box: one search against the Nominatim geocoder, from the guard on a blank
    query through the loading and error flags to the bounds of the first result. The HTTP
    exchange is an input: the response the geocoder gives for the request. */
module AddressSearch {
  import opened Wrappers

  // ---------------------------------------------------------------------------------------------
  // The blank-query guard

  /** The characters `String.prototype.trim` removes: the white space and line terminators of
      sections 12.2 and 12.3 of ECMA-262 (the space separators of Unicode category Zs included). */
  predicate IsJsWhitespace(c: char)
  {
    c == '\U{0009}' || c == '\U{000B}' || c == '\U{000C}' || c == '\U{0020}' || c == '\U{00A0}' ||
    c == '\U{FEFF}' || c == '\U{1680}' || ('\U{2000}' <= c <= '\U{200A}') || c == '\U{202F}' ||
    c == '\U{205F}' || c == '\U{3000}' ||
    c == '\U{000A}' || c == '\U{000D}' || c == '\U{2028}' || c == '\U{2029}'
  }

  predicate IsBlank(s: string)
  {
    forall i :: 0 <= i < |s| ==> IsJsWhitespace(s[i])
  }

  function TrimStart(s: string): (r: string)
    ensures |r| <= |s| && r == s[|s| - |r|..]
    ensures r != [] ==> !IsJsWhitespace(r[0])
    ensures forall i :: 0 <= i < |s| - |r| ==> IsJsWhitespace(s[i])
  {
    if s != [] && IsJsWhitespace(s[0]) then TrimStart(s[1..]) else s
  }

  function TrimEnd(s: string): (r: string)
    ensures |r| <= |s| && r == s[..|r|]
    ensures r != [] ==> !IsJsWhitespace(r[|r| - 1])
    ensures forall i :: |r| <= i < |s| ==> IsJsWhitespace(s[i])
  {
    if s != [] && IsJsWhitespace(s[|s| - 1]) then TrimEnd(s[..|s| - 1]) else s
  }

  /** `s.trim()`: white space removed from both ends. */
  function Trim(s: string): string
  {
    TrimEnd(TrimStart(s))
  }

  /** `!query.trim()` holds exactly for a query of white space only (the empty one included). */
  lemma BlankIffTrimmedEmpty(s: string)
    ensures Trim(s) == "" <==> IsBlank(s)
  {
    var t := TrimStart(s);
    if t != [] {
      assert t[0] == s[|s| - |t|];
    }
  }

  // ---------------------------------------------------------------------------------------------
  // The request and the response

  /** The query parameters of the search request, in order. */
  function SearchParams(query: string): (params: seq<(string, string)>)
    ensures |params| == 4
    ensures params[0] == ("q", query)
    ensures params[1..] == [("format", "geojson"), ("limit", "1"), ("addressdetails", "1")]
  {
    [("q", query), ("format", "geojson"), ("limit", "1"), ("addressdetails", "1")]
  }

  /** A result of the geocoder; its `bbox` may be missing. */
  datatype ResultFeature = ResultFeature(bbox: Option<seq<real>>)

  /** The body of an OK response; its `features` may be missing. */
  datatype SearchData = SearchData(features: Option<seq<ResultFeature>>)

  /** What the geocoder does with the request: the fetch itself fails, the response is not OK, or
      it is OK and its JSON body is read (which may fail). */
  datatype Response =
    | FetchRejected(thrown: Thrown)
    | NotOk(statusText: string)
    | Ok(body: Outcome<SearchData>)

  datatype LngLat = LngLat(lng: real, lat: real)

  /** Map bounds as two corners. */
  datatype Bounds = Bounds(first: LngLat, second: LngLat)

  /** `[[bbox[0], bbox[1]], [bbox[2], bbox[3]]]` for a bbox of exactly four entries. */
  function BoundsOf(bbox: Option<seq<real>>): (r: Option<Bounds>)
    ensures r.Some? <==> bbox.Some? && |bbox.value| == 4
  {
    if bbox.None? || |bbox.value| != 4 then None
    else Some(Bounds(LngLat(bbox.value[0], bbox.value[1]), LngLat(bbox.value[2], bbox.value[3])))
  }

  /** The bbox whose bounds are `b`: the corners' coordinates in order. */
  function BboxOf(b: Bounds): (bbox: seq<real>)
    ensures |bbox| == 4
  {
    [b.first.lng, b.first.lat, b.second.lng, b.second.lat]
  }

  /** Bounds and four-entry bboxes correspond one to one. */
  lemma BoundsRoundTrip(b: Bounds, bbox: Option<seq<real>>)
    ensures BoundsOf(Some(BboxOf(b))) == Some(b)
    ensures BoundsOf(bbox) == Some(b) ==> bbox == Some(BboxOf(b))
  {
    if BoundsOf(bbox) == Some(b) {
      assert bbox.value == BboxOf(b);
    }
  }

  /** The error the catch block sets for a caught failure: its `message` when that is non-empty,
      otherwise a fixed text. For a thrown `null` or `undefined`, reading `message` throws inside
      the catch block, which then sets no error at all (`None`). */
  function FailureText(t: Thrown): (m: Option<string>)
    ensures m.None? <==> t.Nullish?
    ensures m.Some? ==> m.value != ""
    ensures t.ErrorInstance? && t.message != "" ==> m == Some(t.message)
    ensures t.OtherThrown? && t.messageProperty.Some? && t.messageProperty.value != "" ==>
      m == Some(t.messageProperty.value)
    ensures (t.ErrorInstance? && t.message == "") ||
            (t.OtherThrown? && (t.messageProperty.None? || t.messageProperty.value == "")) ==>
      m == Some("Failed to fetch address.")
  {
    match t
    case ErrorInstance(message) => Some(if message != "" then message else "Failed to fetch address.")
    case OtherThrown(messageProperty) =>
      Some(if messageProperty.Some? && messageProperty.value != "" then messageProperty.value
           else "Failed to fetch address.")
    case Nullish => None
  }

  /** How the request part of a search ends: with the bounds of the first result, or having failed
      with the error it sets (`None` when the catch block itself threw before setting one). */
  datatype SearchOutcome = Located(bounds: Bounds) | Failed(message: Option<string>)

  const NotFoundText: string := "Address not found."
  const NoBoundsText: string := "Could not determine location bounds."
  const ApiErrorPrefix: string := "Nominatim API error: "

  /** How one response ends the search: the bounds of its first result, or the error to show. */
  function Interpret(response: Response): SearchOutcome
  {
    match response
    case FetchRejected(t) => Failed(FailureText(t))
    case NotOk(statusText) => Failed(FailureText(ErrorInstance(ApiErrorPrefix + statusText)))
    case Ok(Threw(t)) => Failed(FailureText(t))
    case Ok(Returned(data)) =>
      if data.features.Some? && |data.features.value| > 0 then
        match BoundsOf(data.features.value[0].bbox)
        case None => Failed(FailureText(ErrorInstance(NoBoundsText)))
        case Some(b) => Located(b)
      else Failed(Some(NotFoundText))
  }

  /** The outcomes of a search, case by case. */
  lemma InterpretCases(response: Response)
    ensures Interpret(response).Located? <==>
      response.Ok? && response.body.Returned? && response.body.value.features.Some? &&
      |response.body.value.features.value| > 0 &&
      BoundsOf(response.body.value.features.value[0].bbox).Some?
    ensures Interpret(response).Located? ==>
      response.body.value.features.value[0].bbox == Some(BboxOf(Interpret(response).bounds))
    ensures response.NotOk? ==>
      Interpret(response) == Failed(Some(ApiErrorPrefix + response.statusText))
    ensures response.Ok? && response.body.Returned? &&
            (response.body.value.features.None? || |response.body.value.features.value| == 0) ==>
      Interpret(response) == Failed(Some(NotFoundText))
    ensures response.Ok? && response.body.Returned? && response.body.value.features.Some? &&
            |response.body.value.features.value| > 0 &&
            BoundsOf(response.body.value.features.value[0].bbox).None? ==>
      Interpret(response) == Failed(Some(NoBoundsText))
    ensures response.FetchRejected? ==> Interpret(response) == Failed(FailureText(response.thrown))
    ensures response.Ok? && response.body.Threw? ==> Interpret(response) == Failed(FailureText(response.body.thrown))
    ensures Interpret(response).Failed? && Interpret(response).message.Some? ==>
      Interpret(response).message.value != ""
  {
    if Interpret(response).Located? {
      BoundsRoundTrip(Interpret(response).bounds, response.body.value.features.value[0].bbox);
    }
    if response.NotOk? {
      assert (ApiErrorPrefix + response.statusText)[0] == 'N';
    }
  }

  // ---------------------------------------------------------------------------------------------
  // The search box

  /** What the search box asks its parent to do: move the map to the bounds, and close. */
  datatype SearchEvent = FoundBounds(bounds: Bounds) | CloseRequested

  /** The parent's callbacks, as far as the search box sees them: each returns or throws. */
  datatype Parent = Parent(onSearchResult: Bounds -> Outcome<()>, onClose: Outcome<()>)

  /** How a search ends once its outcome is known: the error to show (`None` leaves the cleared
      error as it is) and the callbacks called, in order. */
  datatype Ending = Ending(error: Option<string>, events: seq<SearchEvent>)

  /** The callbacks run inside the same `try` as the request: a throw from either is caught and
      shown like any other failure, and a throw from `onSearchResult` skips `onClose`. */
  function Finish(outcome: SearchOutcome, parent: Parent): (r: Ending)
    ensures outcome.Failed? ==> r == Ending(outcome.message, [])
    ensures outcome.Located? ==> 1 <= |r.events| <= 2 && r.events == [FoundBounds(outcome.bounds), CloseRequested][..|r.events|]
    ensures outcome.Located? ==>
      (CloseRequested in r.events <==> parent.onSearchResult(outcome.bounds).Returned?)
    ensures outcome.Located? && parent.onSearchResult(outcome.bounds).Returned? && parent.onClose.Returned? ==>
      r.error.None?
    ensures outcome.Located? && parent.onSearchResult(outcome.bounds).Threw? ==>
      r.error == FailureText(parent.onSearchResult(outcome.bounds).thrown)
    ensures outcome.Located? && parent.onSearchResult(outcome.bounds).Returned? && parent.onClose.Threw? ==>
      r.error == FailureText(parent.onClose.thrown)
  {
    match outcome
    case Failed(m) => Ending(m, [])
    case Located(b) =>
      match parent.onSearchResult(b)
      case Threw(t) => Ending(FailureText(t), [FoundBounds(b)])
      case Returned(_) =>
        match parent.onClose
        case Threw(t) => Ending(FailureText(t), [FoundBounds(b), CloseRequested])
        case Returned(_) => Ending(None, [FoundBounds(b), CloseRequested])
  }

  /** With callbacks that return, a located address sends the bounds and then the close request
      and shows no error; a failure shows its message and sends nothing. */
  lemma FinishWithQuietParent(outcome: SearchOutcome, parent: Parent)
    requires forall b :: parent.onSearchResult(b).Returned?
    requires parent.onClose.Returned?
    ensures outcome.Located? ==> Finish(outcome, parent) == Ending(None, [FoundBounds(outcome.bounds), CloseRequested])
    ensures outcome.Failed? ==> Finish(outcome, parent) == Ending(outcome.message, [])
  {
  }

  /** The loading flag, the error and the events after a search started from the given state,
      with `network` the geocoder's answer to each request. */
  datatype AfterSearch = AfterSearch(isLoading: bool, error: Option<string>, events: seq<SearchEvent>)

  function SearchEffect(query: string, isLoading: bool, error: Option<string>,
                        network: seq<(string, string)> -> Response, parent: Parent): (r: AfterSearch)
    ensures IsBlank(query) ==> r == AfterSearch(isLoading, error, [])
    ensures !IsBlank(query) ==> !r.isLoading
    ensures !IsBlank(query) ==>
      var ending := Finish(Interpret(network(SearchParams(query))), parent);
      r.error == ending.error && r.events == ending.events
  {
    BlankIffTrimmedEmpty(query);
    if Trim(query) == "" then AfterSearch(isLoading, error, [])
    else
      var ending := Finish(Interpret(network(SearchParams(query))), parent);
      AfterSearch(false, ending.error, ending.events)
  }

  class SearchBox {
    var searchQuery: string
    var isLoading: bool
    var error: Option<string>

    constructor()
      ensures searchQuery == "" && !isLoading && error.None?
    {
      searchQuery := "";
      isLoading := false;
      error := None;
    }

    /** Typing into the input. */
    method SetQuery(text: string)
      modifies this
      ensures searchQuery == text
      ensures isLoading == old(isLoading) && error == old(error)
    {
      searchQuery := text;
    }

    /** The part of a search before the request is answered: a blank query stops it with no
        change; otherwise the box shows it is loading, clears its error, and sends the request. */
    method BeginSearch() returns (request: Option<seq<(string, string)>>)
      modifies this
      ensures searchQuery == old(searchQuery)
      ensures IsBlank(searchQuery) ==> request.None? && isLoading == old(isLoading) && error == old(error)
      ensures !IsBlank(searchQuery) ==> request == Some(SearchParams(searchQuery)) && isLoading && error.None?
    {
      BlankIffTrimmedEmpty(searchQuery);
      if Trim(searchQuery) == "" {
        return None;
      }
      isLoading := true;
      error := None;
      request := Some(SearchParams(searchQuery));
    }

    /** The part of a search after the response: the error is set on every failure, the bounds
        and the close request go to the parent on success, and loading ends in every case. */
    method CompleteSearch(response: Response, parent: Parent) returns (events: seq<SearchEvent>)
      modifies this
      ensures searchQuery == old(searchQuery)
      ensures !isLoading
      ensures events == Finish(Interpret(response), parent).events
      ensures error == (if Finish(Interpret(response), parent).error.Some? then Finish(Interpret(response), parent).error
                        else old(error))
    {
      var outcome := Interpret(response);
      events := [];
      if outcome.Failed? {
        if outcome.message.Some? {
          error := outcome.message;
        }
      } else {
        events := [FoundBounds(outcome.bounds)];
        var called := parent.onSearchResult(outcome.bounds);
        if called.Threw? {
          if FailureText(called.thrown).Some? {
            error := FailureText(called.thrown);
          }
        } else {
          events := events + [CloseRequested];
          if parent.onClose.Threw? {
            if FailureText(parent.onClose.thrown).Some? {
              error := FailureText(parent.onClose.thrown);
            }
          }
        }
      }
      isLoading := false;
    }

    /** `handleSearch`, as the search button runs it. */
    method HandleSearch(network: seq<(string, string)> -> Response, parent: Parent) returns (events: seq<SearchEvent>)
      modifies this
      ensures searchQuery == old(searchQuery)
      ensures AfterSearch(isLoading, error, events) ==
        SearchEffect(old(searchQuery), old(isLoading), old(error), network, parent)
    {
      var request := BeginSearch();
      if request.None? {
        return [];
      }
      events := CompleteSearch(network(request.value), parent);
    }

    /** A key press in the input: Enter runs the same search as the button; any other key does
        nothing. */
    method KeyPress(key: string, network: seq<(string, string)> -> Response, parent: Parent)
      returns (events: seq<SearchEvent>)
      modifies this
      ensures searchQuery == old(searchQuery)
      ensures key == "Enter" ==>
        AfterSearch(isLoading, error, events) ==
          SearchEffect(old(searchQuery), old(isLoading), old(error), network, parent)
      ensures key != "Enter" ==> isLoading == old(isLoading) && error == old(error) && events == []
    {
      if key == "Enter" {
        events := HandleSearch(network, parent);
      } else {
        events := [];
      }
    }
  }
}

/** The analysis result panel: nothing while hidden; otherwise the title and one line for the
    value, with its unit when there is one. */
module AnalysisResult {
  import opened Wrappers

  /** The value shown: text, or a number that the page writes out with `numberText`. */
  datatype ResultValue = TextValue(text: string) | NumberValue(number: real)

  /** What the panel shows: its header and its value line. */
  datatype Panel = Panel(header: string, valueLine: string)

  /** `${value}`: text as it is, a number as the page's number-to-text conversion writes it. */
  function ValueText(value: ResultValue, numberText: real -> string): string
  {
    match value
    case TextValue(text) => text
    case NumberValue(n) => numberText(n)
  }

  /** The panel for the given properties; an omitted `unit` is the empty text. */
  function Render(isVisible: bool, title: string, value: Option<ResultValue>, unit: Option<string>,
                  numberText: real -> string): (r: Option<Panel>)
    ensures r.Some? <==> isVisible
  {
    if !isVisible then None
    else
      var u := if unit.Some? then unit.value else "";
      Some(Panel(title, if value.None? then "N/A"
                        else ValueText(value.value, numberText) + (if u != "" then " " + u else "")))
  }

  /** A hidden panel shows nothing, whatever its other properties. */
  lemma HiddenShowsNothing(title: string, value: Option<ResultValue>, unit: Option<string>,
                           numberText: real -> string)
    ensures Render(false, title, value, unit, numberText) == None
  {
  }

  /** A visible panel's header is its title, verbatim. */
  lemma HeaderIsTitle(title: string, value: Option<ResultValue>, unit: Option<string>,
                      numberText: real -> string)
    ensures Render(true, title, value, unit, numberText).value.header == title
  {
  }

  /** A missing value reads "N/A", with or without a unit. */
  lemma MissingValue(title: string, unit: Option<string>, numberText: real -> string)
    ensures Render(true, title, None, unit, numberText).value.valueLine == "N/A"
  {
  }

  /** A value with a non-empty unit reads as the value, one space and the unit; without a unit,
      or with an empty one, as the value alone. */
  lemma ValueWithUnit(title: string, value: ResultValue, unit: Option<string>, numberText: real -> string)
    ensures unit.Some? && unit.value != "" ==>
      Render(true, title, Some(value), unit, numberText).value.valueLine ==
        ValueText(value, numberText) + " " + unit.value
    ensures unit.None? || unit.value == "" ==>
      Render(true, title, Some(value), unit, numberText).value.valueLine == ValueText(value, numberText)
  {
    if unit.Some? && unit.value != "" {
      assert ValueText(value, numberText) + (" " + unit.value) == ValueText(value, numberText) + " " + unit.value;
    }
  }

  /** The value line of a present value splits back into the value's text and the unit: the unit
      is present exactly when the line is longer than the value text. */
  lemma ValueLineSplits(title: string, value: ResultValue, unit: Option<string>, numberText: real -> string)
    ensures var line := Render(true, title, Some(value), unit, numberText).value.valueLine;
            var v := ValueText(value, numberText);
            |v| <= |line| && line[..|v|] == v &&
            (|line| > |v| <==> unit.Some? && unit.value != "") &&
            (|line| > |v| ==> line[|v|..] == " " + unit.value)
  {
  }
}

/** JSON values and JSON text (the grammar of RFC 8259): the parser that `JSON.parse` applies
    to a string argument, and an encoder that writes a value back as JSON text. */
module Json {
  import opened Wrappers

  /** A JSON number, kept exactly as the decimal mantissa * 10^exponent that its text spells. */
  datatype Decimal = Decimal(mantissa: int, exponent: int)

  datatype Json =
    | JNull
    | JBool(b: bool)
    | JNum(n: Decimal)
    | JStr(s: string)
    | JArr(items: seq<Json>)
    | JObj(members: seq<Member>)

  /** One `"key": value` member of an object, in text order. */
  datatype Member = Member(key: string, value: Json)

  /** The value an object gives `key`: that of the LAST member with that key, since a repeated key
      overwrites the earlier one when `JSON.parse` builds the object. */
  function Get(members: seq<Member>, key: string): (r: Option<Json>)
    ensures r.None? <==> forall i :: 0 <= i < |members| ==> members[i].key != key
    ensures r.Some? ==>
      exists i :: 0 <= i < |members| && members[i] == Member(key, r.value) &&
        forall j :: i < j < |members| ==> members[j].key != key
    decreases |members|
  {
    if |members| == 0 then None
    else if members[|members| - 1].key == key then Some(members[|members| - 1].value)
    else Get(members[..|members| - 1], key)
  }

  function Pow10(n: nat): (r: nat)
    ensures r >= 1
  {
    if n == 0 then 1 else 10 * Pow10(n - 1)
  }

  /** The number a decimal stands for. */
  function Value(d: Decimal): real
  {
    if d.exponent >= 0 then (d.mantissa * Pow10(d.exponent)) as real
    else d.mantissa as real / Pow10(-d.exponent) as real
  }

  // ---------------------------------------------------------------------------------------------
  // Lexical helpers

  /** The four insignificant whitespace characters of JSON text. */
  predicate IsWs(c: char)
  {
    c == ' ' || c == '\t' || c == '\n' || c == '\r'
  }

  function SkipWs(s: string): (r: string)
    ensures |r| <= |s|
  {
    if s != [] && IsWs(s[0]) then SkipWs(s[1..]) else s
  }

  predicate IsDigit(c: char)
  {
    '0' <= c <= '9'
  }

  function DigitOf(c: char): (d: nat)
    ensures d < 10
  {
    if IsDigit(c) then c as int - '0' as int else 0
  }

  function DigitChar(d: nat): (c: char)
    requires d < 10
    ensures IsDigit(c) && DigitOf(c) == d
  {
    ('0' as int + d) as char
  }

  /** The number of digits at the start of s. */
  function DigitRun(s: string): (n: nat)
    ensures n <= |s|
  {
    if s != [] && IsDigit(s[0]) then 1 + DigitRun(s[1..]) else 0
  }

  /** The value of a run of decimal digits, most significant first. */
  function DigitsValue(ds: string): nat
  {
    if ds == [] then 0 else 10 * DigitsValue(ds[..|ds| - 1]) + DigitOf(ds[|ds| - 1])
  }

  predicate IsHexDigit(c: char)
  {
    IsDigit(c) || 'a' <= c <= 'f' || 'A' <= c <= 'F'
  }

  function HexDigitValue(c: char): (v: nat)
    requires IsHexDigit(c)
    ensures v < 16
  {
    if IsDigit(c) then DigitOf(c)
    else if 'a' <= c <= 'f' then c as int - 'a' as int + 10
    else c as int - 'A' as int + 10
  }

  /** The code unit written by the four hex digits that start s, if they are hex digits. */
  function Hex4(s: string): (r: Option<nat>)
    ensures r.Some? ==> |s| >= 4 && r.value < 0x1_0000
  {
    if |s| >= 4 && IsHexDigit(s[0]) && IsHexDigit(s[1]) && IsHexDigit(s[2]) && IsHexDigit(s[3]) then
      Some(0x1000 * HexDigitValue(s[0]) + 0x100 * HexDigitValue(s[1])
           + 0x10 * HexDigitValue(s[2]) + HexDigitValue(s[3]))
    else None
  }

  // ---------------------------------------------------------------------------------------------
  // Parsing. Each ParseX reads the construct at the very start of its argument and returns what it
  // read together with the text after it.

  /** A number: -? (0 | [1-9][0-9]*) (. [0-9]+)? ([eE] [+-]? [0-9]+)? */
  function ParseNumber(s: string): (r: Option<(Decimal, string)>)
    ensures r.Some? ==> |r.value.1| < |s|
  {
    if s != [] && s[0] == '-' then Negated(ParseMagnitude(s[1..])) else ParseMagnitude(s)
  }

  function Negated(r: Option<(Decimal, string)>): Option<(Decimal, string)>
  {
    match r
    case None => None
    case Some((d, rest)) => Some((Decimal(-d.mantissa, d.exponent), rest))
  }

  /** An unsigned number; its integer part is a single 0, or digits that do not start with 0. */
  function ParseMagnitude(t: string): (r: Option<(Decimal, string)>)
    ensures r.Some? ==> |r.value.1| < |t|
  {
    if t == [] || !IsDigit(t[0]) then None
    else
      var intLen := if t[0] == '0' then 1 else DigitRun(t);
      ParseFraction(DigitsValue(t[..intLen]), t[intLen..])
  }

  /** The optional fraction after the integer part, whose digits extend the mantissa. */
  function ParseFraction(integer: nat, s: string): (r: Option<(Decimal, string)>)
    ensures r.Some? ==> |r.value.1| <= |s|
  {
    if s != [] && s[0] == '.' then
      var n := DigitRun(s[1..]);
      if n == 0 then None
      else WithExponent(integer * Pow10(n) + DigitsValue(s[1..1 + n]), n, s[1 + n..])
    else WithExponent(integer, 0, s)
  }

  function WithExponent(magnitude: nat, fractionDigits: nat, s: string): (r: Option<(Decimal, string)>)
    ensures r.Some? ==> |r.value.1| <= |s|
  {
    match ParseExponent(s)
    case None => None
    case Some((e, rest)) => Some((Decimal(magnitude, e - fractionDigits), rest))
  }

  /** The optional exponent part of a number; an absent one stands for 0. */
  function ParseExponent(s: string): (r: Option<(int, string)>)
    ensures r.Some? ==> |r.value.1| <= |s|
  {
    if s != [] && (s[0] == 'e' || s[0] == 'E') then
      var t := s[1..];
      var negative := t != [] && t[0] == '-';
      var u := if t != [] && (t[0] == '+' || t[0] == '-') then t[1..] else t;
      var n := DigitRun(u);
      if n == 0 then None
      else
        var magnitude: int := DigitsValue(u[..n]);
        Some((if negative then -magnitude else magnitude, u[n..]))
    else Some((0, s))
  }

  function Prepend(c: char, r: Option<(string, string)>): Option<(string, string)>
  {
    match r
    case None => None
    case Some((cs, rest)) => Some(([c] + cs, rest))
  }

  /** The characters of a string literal up to its closing quote; s starts after the opening one. */
  function ParseStringBody(s: string): (r: Option<(string, string)>)
    ensures r.Some? ==> |r.value.1| < |s|
    decreases |s|
  {
    if s == [] then None
    else if s[0] == '"' then Some(([], s[1..]))
    else if s[0] == '\\' then
      match ParseEscape(s[1..])
      case None => None
      case Some((c, rest)) => Prepend(c, ParseStringBody(rest))
    else if s[0] as int < 0x20 then None  // control characters must be escaped
    else Prepend(s[0], ParseStringBody(s[1..]))
  }

  /** One escape sequence; s starts after the backslash. */
  function ParseEscape(s: string): (r: Option<(char, string)>)
    ensures r.Some? ==> |r.value.1| < |s|
  {
    if s == [] then None
    else if s[0] == '"' then Some(('"', s[1..]))
    else if s[0] == '\\' then Some(('\\', s[1..]))
    else if s[0] == '/' then Some(('/', s[1..]))
    else if s[0] == 'b' then Some((8 as char, s[1..]))
    else if s[0] == 'f' then Some((12 as char, s[1..]))
    else if s[0] == 'n' then Some(('\n', s[1..]))
    else if s[0] == 'r' then Some(('\r', s[1..]))
    else if s[0] == 't' then Some(('\t', s[1..]))
    else if s[0] == 'u' then ParseUnicodeEscape(s[1..])
    else None
  }

  /** The hex digits of a \u escape; s starts after "\u". A high surrogate must be followed by an
      escaped low surrogate, and the pair stands for one character beyond U+FFFF. */
  function ParseUnicodeEscape(s: string): (r: Option<(char, string)>)
    ensures r.Some? ==> |r.value.1| < |s|
  {
    match Hex4(s)
    case None => None
    case Some(high) =>
      if 0xD800 <= high < 0xDC00 then
        if |s| >= 6 && s[4] == '\\' && s[5] == 'u' then
          match Hex4(s[6..])
          case None => None
          case Some(low) =>
            if 0xDC00 <= low < 0xE000 then
              Some(((0x1_0000 + (high - 0xD800) * 0x400 + (low - 0xDC00)) as char, s[10..]))
            else None
        else None
      else if 0xDC00 <= high < 0xE000 then None
      else Some((high as char, s[4..]))
  }

  /** `s` must start with the literal word `word`. */
  function ParseKeyword(s: string, word: string, v: Json): (r: Option<(Json, string)>)
    requires |word| > 0
    ensures r.Some? ==> |r.value.1| < |s|
  {
    if |s| >= |word| && s[..|word|] == word then Some((v, s[|word|..])) else None
  }

  /** One value; s starts at the value's first character. */
  function ParseValue(s: string): (r: Option<(Json, string)>)
    ensures r.Some? ==> |r.value.1| < |s|
    decreases |s|, 1
  {
    if s == [] then None
    else if s[0] == '[' then ParseArray(s[1..])
    else if s[0] == '{' then ParseObject(s[1..])
    else if s[0] == '"' then ParseStringValue(s[1..])
    else if s[0] == '-' || IsDigit(s[0]) then ParseNumberValue(s)
    else if s[0] == 'n' then ParseKeyword(s, "null", JNull)
    else if s[0] == 't' then ParseKeyword(s, "true", JBool(true))
    else if s[0] == 'f' then ParseKeyword(s, "false", JBool(false))
    else None
  }

  function ParseStringValue(s: string): (r: Option<(Json, string)>)
    ensures r.Some? ==> |r.value.1| < |s|
  {
    match ParseStringBody(s)
    case None => None
    case Some((str, rest)) => Some((JStr(str), rest))
  }

  function ParseNumberValue(s: string): (r: Option<(Json, string)>)
    ensures r.Some? ==> |r.value.1| < |s|
  {
    match ParseNumber(s)
    case None => None
    case Some((d, rest)) => Some((JNum(d), rest))
  }

  /** An array; s starts after its opening bracket. */
  function ParseArray(s: string): (r: Option<(Json, string)>)
    ensures r.Some? ==> |r.value.1| < |s|
    decreases |s|, 3
  {
    var t := SkipWs(s);
    if t != [] && t[0] == ']' then Some((JArr([]), t[1..]))
    else
      match ParseItems(t)
      case None => None
      case Some((items, rest)) => Some((JArr(items), rest))
  }

  /** An object; s starts after its opening brace. */
  function ParseObject(s: string): (r: Option<(Json, string)>)
    ensures r.Some? ==> |r.value.1| < |s|
    decreases |s|, 3
  {
    var t := SkipWs(s);
    if t != [] && t[0] == '}' then Some((JObj([]), t[1..]))
    else
      match ParseMembers(t)
      case None => None
      case Some((members, rest)) => Some((JObj(members), rest))
  }

  /** `value ws ("," ws value ws)* "]"`: the items of a non-empty array and its closing bracket. */
  function ParseItems(s: string): (r: Option<(seq<Json>, string)>)
    ensures r.Some? ==> |r.value.1| < |s|
    decreases |s|, 2
  {
    match ParseValue(s)
    case None => None
    case Some((v, afterValue)) =>
      var t := SkipWs(afterValue);
      if t != [] && t[0] == ',' then
        match ParseItems(SkipWs(t[1..]))
        case None => None
        case Some((vs, rest)) => Some(([v] + vs, rest))
      else if t != [] && t[0] == ']' then Some(([v], t[1..]))
      else None
  }

  /** `string ws ":" ws value`: one member of an object, up to the text after its value. */
  function ParseMember(s: string): (r: Option<(Member, string)>)
    ensures r.Some? ==> |r.value.1| < |s|
    decreases |s|, 0
  {
    if s == [] || s[0] != '"' then None
    else
      match ParseStringBody(s[1..])
      case None => None
      case Some((key, afterKey)) =>
        var t := SkipWs(afterKey);
        if t == [] || t[0] != ':' then None
        else
          match ParseValue(SkipWs(t[1..]))
          case None => None
          case Some((v, afterValue)) => Some((Member(key, v), afterValue))
  }

  /** `member ws ("," ws member ws)* "}"`: the members of a non-empty object and its closing brace. */
  function ParseMembers(s: string): (r: Option<(seq<Member>, string)>)
    ensures r.Some? ==> |r.value.1| < |s|
    decreases |s|, 2
  {
    match ParseMember(s)
    case None => None
    case Some((m, afterValue)) =>
      var u := SkipWs(afterValue);
      if u != [] && u[0] == ',' then
        match ParseMembers(SkipWs(u[1..]))
        case None => None
        case Some((ms, rest)) => Some(([m] + ms, rest))
      else if u != [] && u[0] == '}' then Some(([m], u[1..]))
      else None
  }

  /** What `JSON.parse` makes of a whole text: one value, with only whitespace around it. */
  function Parse(text: string): (r: Option<Json>)
  {
    match ParseValue(SkipWs(text))
    case None => None
    case Some((v, rest)) => if SkipWs(rest) == [] then Some(v) else None
  }

  // ---------------------------------------------------------------------------------------------
  // Encoding: compact JSON text, strings escaped as JSON.stringify escapes them.

  /** The decimal digits of n, without leading zeros. */
  function NatText(n: nat): (s: string)
    ensures s != [] && forall i :: 0 <= i < |s| ==> IsDigit(s[i])
    ensures (n == 0) == (s[0] == '0')
    ensures n == 0 ==> s == "0"
  {
    if n < 10 then [DigitChar(n)] else NatText(n / 10) + [DigitChar(n % 10)]
  }

  function EncodeNumber(d: Decimal): string
  {
    var magnitude := if d.mantissa < 0 then -d.mantissa else d.mantissa;
    var e := if d.exponent < 0 then -d.exponent else d.exponent;
    (if d.mantissa < 0 then "-" else "") + NatText(magnitude)
    + (if d.exponent == 0 then "" else "e" + (if d.exponent < 0 then "-" else "") + NatText(e))
  }

  function HexChar(n: nat): char
    requires n < 16
  {
    if n < 10 then DigitChar(n) else ('a' as int + n - 10) as char
  }

  function EscapeChar(c: char): string
  {
    if c == '"' then "\\\""
    else if c == '\\' then "\\\\"
    else if c == 8 as char then "\\b"
    else if c == 12 as char then "\\f"
    else if c == '\n' then "\\n"
    else if c == '\r' then "\\r"
    else if c == '\t' then "\\t"
    else if c as int < 0x20 then "\\u00" + [HexChar(c as int / 16), HexChar(c as int % 16)]
    else [c]
  }

  function EscapeString(s: string): string
  {
    if s == [] then [] else EscapeChar(s[0]) + EscapeString(s[1..])
  }

  function Encode(v: Json): string
    decreases v, 1
  {
    match v
    case JNull => "null"
    case JBool(b) => if b then "true" else "false"
    case JNum(d) => EncodeNumber(d)
    case JStr(s) => "\"" + EscapeString(s) + "\""
    case JArr(items) => "[" + Joined(EncodeAll(items)) + "]"
    case JObj(members) => "{" + Joined(EncodeEach(members)) + "}"
  }

  /** The texts of the elements of an array, in order. */
  function EncodeAll(items: seq<Json>): (r: seq<string>)
    ensures |r| == |items|
    ensures forall i :: 0 <= i < |items| ==> r[i] == Encode(items[i])
    decreases items, 0
  {
    if items == [] then [] else [Encode(items[0])] + EncodeAll(items[1..])
  }

  function EncodeMember(m: Member): string
    decreases m, 0
  {
    "\"" + EscapeString(m.key) + "\":" + Encode(m.value)
  }

  /** The texts of the members of an object, in order. */
  function EncodeEach(members: seq<Member>): (r: seq<string>)
    ensures |r| == |members|
    ensures forall i :: 0 <= i < |members| ==> r[i] == EncodeMember(members[i])
    decreases members, 1
  {
    if members == [] then [] else [EncodeMember(members[0])] + EncodeEach(members[1..])
  }

  /** Texts separated by commas. */
  function Joined(texts: seq<string>): string
  {
    if texts == [] then ""
    else if |texts| == 1 then texts[0]
    else texts[0] + "," + Joined(texts[1..])
  }
}

/** Parsing the text that Encode writes gives back the value: JSON.parse(Encode(v)) == v. */
module JsonRoundTrip {
  import opened Wrappers
  import opened Json

  /** What may follow an encoded value inside larger text: nothing, or a separator. */
  predicate Delimited(rest: string)
  {
    rest == [] || rest[0] == ',' || rest[0] == ']' || rest[0] == '}'
  }

  // ---------------------------------------------------------------------------------------------
  // Numbers

  lemma {:induction false} DigitRunOfDigits(ds: string, rest: string)
    requires forall i :: 0 <= i < |ds| ==> IsDigit(ds[i])
    requires rest == [] || !IsDigit(rest[0])
    ensures DigitRun(ds + rest) == |ds|
  {
    if ds != [] {
      assert (ds + rest)[1..] == ds[1..] + rest;
      DigitRunOfDigits(ds[1..], rest);
    } else {
      assert ds + rest == rest;
    }
  }

  lemma {:induction false} NatTextValue(n: nat)
    ensures DigitsValue(NatText(n)) == n
  {
    var s := NatText(n);
    if n < 10 {
      assert s[..0] == [];
    } else {
      var front := NatText(n / 10);
      assert s[..|s| - 1] == front;
      NatTextValue(n / 10);
    }
  }

  /** The digits of NatText(n), followed by something that is not a digit, read back as n. */
  lemma NatTextParts(n: nat, rest: string)
    requires rest == [] || !IsDigit(rest[0])
    ensures DigitRun(NatText(n) + rest) == |NatText(n)|
    ensures (NatText(n) + rest)[..|NatText(n)|] == NatText(n)
    ensures (NatText(n) + rest)[|NatText(n)|..] == rest
    ensures DigitsValue(NatText(n)) == n
  {
    DigitRunOfDigits(NatText(n), rest);
    NatTextValue(n);
  }

  /** Text that cannot continue a number. */
  predicate EndsNumber(rest: string)
  {
    rest == [] || !(IsDigit(rest[0]) || rest[0] == '.' || rest[0] == 'e' || rest[0] == 'E')
  }

  /** The exponent part that EncodeNumber writes. */
  function ExponentText(e: int): string
  {
    if e == 0 then "" else "e" + (if e < 0 then "-" else "") + NatText(if e < 0 then -e else e)
  }

  lemma Assoc(a: string, b: string, c: string)
    ensures (a + b) + c == a + (b + c)
  {
  }

  lemma ParsePositiveExponent(x: string, n: nat, rest: string)
    requires rest == [] || !IsDigit(rest[0])
    requires x == "e" + (NatText(n) + rest)
    ensures ParseExponent(x) == Some((n as int, rest))
  {
    var u := NatText(n) + rest;
    NatTextParts(n, rest);
    assert x[1..] == u;
  }

  lemma ParseNegativeExponent(x: string, n: nat, rest: string)
    requires rest == [] || !IsDigit(rest[0])
    requires x == "e" + ("-" + (NatText(n) + rest))
    ensures ParseExponent(x) == Some((-(n as int), rest))
  {
    var u := NatText(n) + rest;
    NatTextParts(n, rest);
    assert x[1..] == "-" + u;
    assert ("-" + u)[1..] == u;
  }

  lemma NegativeExponentText(e: int, rest: string)
    requires e < 0
    ensures ExponentText(e) + rest == "e" + ("-" + (NatText(-e) + rest))
  {
    Assoc("e" + "-", NatText(-e), rest);
    Assoc("e", "-", NatText(-e) + rest);
  }

  lemma PositiveExponentText(e: int, rest: string)
    requires e > 0
    ensures ExponentText(e) + rest == "e" + (NatText(e) + rest)
  {
    assert "e" + "" == "e";
    Assoc("e", NatText(e), rest);
  }

  lemma ParseNegativeExponentEncoded(e: int, rest: string)
    requires e < 0 && EndsNumber(rest)
    ensures ParseExponent(ExponentText(e) + rest) == Some((e, rest))
  {
    NegativeExponentText(e, rest);
    ParseNegativeExponent(ExponentText(e) + rest, -e, rest);
  }

  lemma ParsePositiveExponentEncoded(e: int, rest: string)
    requires e > 0 && EndsNumber(rest)
    ensures ParseExponent(ExponentText(e) + rest) == Some((e, rest))
  {
    PositiveExponentText(e, rest);
    ParsePositiveExponent(ExponentText(e) + rest, e, rest);
  }

  lemma ParseExponentEncoded(e: int, rest: string)
    requires EndsNumber(rest)
    ensures ParseExponent(ExponentText(e) + rest) == Some((e, rest))
  {
    if e == 0 {
      assert ExponentText(e) + rest == rest;
      assert ParseExponent(rest) == Some((0, rest));
    } else if e < 0 {
      ParseNegativeExponentEncoded(e, rest);
    } else {
      ParsePositiveExponentEncoded(e, rest);
    }
  }

  lemma ParseMagnitudeEncoded(n: nat, e: int, rest: string)
    requires EndsNumber(rest)
    ensures ParseMagnitude(NatText(n) + (ExponentText(e) + rest)) == Some((Decimal(n, e), rest))
  {
    var after := ExponentText(e) + rest;
    var t := NatText(n) + after;
    assert after == [] || (!IsDigit(after[0]) && after[0] != '.');
    NatTextParts(n, after);
    var intLen := if t[0] == '0' then 1 else DigitRun(t);
    assert intLen == |NatText(n)|;
    ParseExponentEncoded(e, rest);
    assert ParseFraction(n, after) == WithExponent(n, 0, after);
  }

  lemma EncodeNumberText(d: Decimal)
    ensures var m := if d.mantissa < 0 then -d.mantissa else d.mantissa;
      EncodeNumber(d) == (if d.mantissa < 0 then "-" else "") + NatText(m) + ExponentText(d.exponent)
  {
  }

  lemma ParseSignedNumber(t: string)
    ensures ParseNumber("-" + t) == Negated(ParseMagnitude(t))
  {
    assert ("-" + t)[1..] == t;
  }

  lemma ParseUnsignedNumber(t: string)
    requires t != [] && IsDigit(t[0])
    ensures ParseNumber(t) == ParseMagnitude(t)
  {
  }

  lemma ParseNumberEncoded(d: Decimal, rest: string)
    requires EndsNumber(rest)
    ensures ParseNumber(EncodeNumber(d) + rest) == Some((d, rest))
  {
    var m := if d.mantissa < 0 then -d.mantissa else d.mantissa;
    var x := ExponentText(d.exponent);
    var t := NatText(m) + (x + rest);
    ParseMagnitudeEncoded(m, d.exponent, rest);
    EncodeNumberText(d);
    if d.mantissa < 0 {
      Assoc("-" + NatText(m), x, rest);
      Assoc("-", NatText(m), x + rest);
      ParseSignedNumber(t);
    } else {
      assert "" + NatText(m) == NatText(m);
      Assoc(NatText(m), x, rest);
      ParseUnsignedNumber(t);
    }
  }

  // ---------------------------------------------------------------------------------------------
  // Strings

  lemma ParseHex2(c: char, x: string)
    requires c as int < 0x20
    ensures ParseUnicodeEscape(['0', '0', HexChar(c as int / 16), HexChar(c as int % 16)] + x)
            == Some((c, x))
  {
    var s := ['0', '0', HexChar(c as int / 16), HexChar(c as int % 16)] + x;
    assert IsHexDigit(s[0]) && IsHexDigit(s[1]) && IsHexDigit(s[2]) && IsHexDigit(s[3]);
    assert HexDigitValue(s[2]) == c as int / 16;
    assert HexDigitValue(s[3]) == c as int % 16;
    assert Hex4(s) == Some(c as int);
    assert s[4..] == x;
  }

  lemma StringBodyBackslash(t: string, c: char, x: string)
    requires ParseEscape(t) == Some((c, x))
    ensures ParseStringBody(['\\'] + t) == Prepend(c, ParseStringBody(x))
  {
    assert (['\\'] + t)[1..] == t;
  }

  lemma StringBodyPlain(c: char, x: string)
    requires c != '"' && c != '\\' && c as int >= 0x20
    ensures ParseStringBody([c] + x) == Prepend(c, ParseStringBody(x))
  {
    assert ([c] + x)[1..] == x;
  }

  /** The two-character escapes \" \\ \b \f \n \r \t. */
  lemma ParseShortEscape(c: char, x: string)
    requires c == '"' || c == '\\' || c == 8 as char || c == 12 as char || c == '\n' || c == '\r' || c == '\t'
    ensures ParseStringBody(EscapeChar(c) + x) == Prepend(c, ParseStringBody(x))
  {
    var e := EscapeChar(c)[1];
    assert EscapeChar(c) == ['\\', e];
    assert EscapeChar(c) + x == ['\\'] + ([e] + x);
    assert ([e] + x)[1..] == x;
    StringBodyBackslash([e] + x, c, x);
  }

  lemma ParseHexEscape(c: char, x: string)
    requires c as int < 0x20
    ensures ParseStringBody("\\u00" + [HexChar(c as int / 16), HexChar(c as int % 16)] + x)
            == Prepend(c, ParseStringBody(x))
  {
    var h := ['0', '0', HexChar(c as int / 16), HexChar(c as int % 16)] + x;
    assert "\\u00" + [HexChar(c as int / 16), HexChar(c as int % 16)] + x == ['\\'] + (['u'] + h);
    assert (['u'] + h)[1..] == h;
    ParseHex2(c, x);
    StringBodyBackslash(['u'] + h, c, x);
  }

  /** One escaped character, followed by more text, reads back as that character. */
  lemma ParseEscapedChar(c: char, x: string)
    ensures ParseStringBody(EscapeChar(c) + x) == Prepend(c, ParseStringBody(x))
  {
    if c == '"' || c == '\\' || c == 8 as char || c == 12 as char || c == '\n' || c == '\r' || c == '\t' {
      ParseShortEscape(c, x);
    } else if c as int < 0x20 {
      ParseHexEscape(c, x);
    } else {
      StringBodyPlain(c, x);
    }
  }

  lemma {:induction false} ParseEscapedString(str: string, rest: string)
    ensures ParseStringBody(EscapeString(str) + "\"" + rest) == Some((str, rest))
  {
    if str == [] {
      assert EscapeString(str) + "\"" + rest == "\"" + rest;
      assert ("\"" + rest)[1..] == rest;
    } else {
      var x := EscapeString(str[1..]) + "\"" + rest;
      assert EscapeString(str) + "\"" + rest == EscapeChar(str[0]) + x;
      ParseEscapedChar(str[0], x);
      ParseEscapedString(str[1..], rest);
      assert [str[0]] + str[1..] == str;
    }
  }

  // ---------------------------------------------------------------------------------------------
  // Values

  /** Encoded text starts with the first character of a value. */
  lemma EncodeStart(v: Json)
    ensures Encode(v) != []
    ensures !IsWs(Encode(v)[0]) && Encode(v)[0] != ']' && Encode(v)[0] != '}' && Encode(v)[0] != ','
    ensures v.JNum? <==> (Encode(v)[0] == '-' || IsDigit(Encode(v)[0]))
  {
  }

  lemma JoinedStart(texts: seq<string>)
    requires texts != [] && texts[0] != []
    ensures Joined(texts) != [] && Joined(texts)[0] == texts[0][0]
  {
  }

  lemma NoWsToSkip(s: string)
    requires s == [] || !IsWs(s[0])
    ensures SkipWs(s) == s
  {
  }

  // Steps of the parser on text of a given shape.

  lemma ParseKeywordText(word: string, v: Json, rest: string)
    requires |word| > 0
    ensures ParseKeyword(word + rest, word, v) == Some((v, rest))
  {
    assert (word + rest)[..|word|] == word;
    assert (word + rest)[|word|..] == rest;
  }

  lemma ParseValueArray(t: string)
    ensures ParseValue("[" + t) == ParseArray(t)
  {
    assert ("[" + t)[1..] == t;
  }

  lemma ParseValueObject(t: string)
    ensures ParseValue("{" + t) == ParseObject(t)
  {
    assert ("{" + t)[1..] == t;
  }

  lemma ParseValueString(t: string)
    ensures ParseValue("\"" + t) == ParseStringValue(t)
  {
    assert ("\"" + t)[1..] == t;
  }

  lemma ItemsLast(s: string, v: Json, rest: string)
    requires ParseValue(s) == Some((v, "]" + rest))
    ensures ParseItems(s) == Some(([v], rest))
  {
    NoWsToSkip("]" + rest);
    assert ("]" + rest)[1..] == rest;
  }

  lemma ItemsNext(s: string, v: Json, tail: string, vs: seq<Json>, rest: string)
    requires ParseValue(s) == Some((v, "," + tail))
    requires SkipWs(tail) == tail && ParseItems(tail) == Some((vs, rest))
    ensures ParseItems(s) == Some(([v] + vs, rest))
  {
    NoWsToSkip("," + tail);
    var u := SkipWs("," + tail);
    assert u[1..] == tail;
    assert ParseItems(SkipWs(u[1..])) == Some((vs, rest));
  }

  lemma MemberStep(x: string, key: string, y: string, v: Json, after: string)
    requires ParseStringBody(x) == Some((key, ":" + y))
    requires SkipWs(y) == y && ParseValue(y) == Some((v, after))
    ensures ParseMember("\"" + x) == Some((Member(key, v), after))
  {
    assert ("\"" + x)[1..] == x;
    NoWsToSkip(":" + y);
    assert (":" + y)[1..] == y;
  }

  lemma MembersLast(s: string, m: Member, rest: string)
    requires ParseMember(s) == Some((m, "}" + rest))
    ensures ParseMembers(s) == Some(([m], rest))
  {
    NoWsToSkip("}" + rest);
    assert ("}" + rest)[1..] == rest;
  }

  lemma MembersNext(s: string, m: Member, tail: string, ms: seq<Member>, rest: string)
    requires ParseMember(s) == Some((m, "," + tail))
    requires SkipWs(tail) == tail && ParseMembers(tail) == Some((ms, rest))
    ensures ParseMembers(s) == Some(([m] + ms, rest))
  {
    NoWsToSkip("," + tail);
    var u := SkipWs("," + tail);
    assert u[1..] == tail;
    assert ParseMembers(SkipWs(u[1..])) == Some((ms, rest));
  }

  // Shapes of encoded text.

  lemma BracketedText(open: string, body: string, close: string, rest: string)
    ensures open + body + close + rest == open + (body + close + rest)
  {
    Assoc(open + body, close, rest);
    Assoc(open, body, close + rest);
    Assoc(body, close, rest);
  }

  lemma SeparatedText(first: string, others: string, close: string, rest: string)
    ensures first + "," + others + close + rest == first + ("," + (others + close + rest))
  {
    Assoc(first + ",", others, close);
    Assoc(first + ",", others + close, rest);
    Assoc(first, ",", others + close + rest);
    Assoc(others, close, rest);
  }

  lemma MemberText(key: string, value: string, after: string)
    ensures "\"" + key + "\":" + value + after
            == "\"" + (key + "\"" + (":" + (value + after)))
  {
    var q := "\"";
    var x := ":" + (value + after);
    Assoc(q + key + "\":", value, after);
    Assoc(q + key, "\":", value + after);
    Assoc(q, key, "\":" + (value + after));
    assert "\":" == q + ":";
    Assoc(q, ":", value + after);
    Assoc(key, q, x);
  }

  lemma ParseEncodedKeyword(v: Json, rest: string)
    requires v.JNull? || v.JBool?
    ensures ParseValue(Encode(v) + rest) == Some((v, rest))
  {
    if v.JNull? {
      ParseKeywordText("null", JNull, rest);
    } else if v.b {
      ParseKeywordText("true", JBool(true), rest);
    } else {
      ParseKeywordText("false", JBool(false), rest);
    }
  }

  lemma ParseEncodedNumber(d: Decimal, rest: string)
    requires Delimited(rest)
    ensures ParseValue(Encode(JNum(d)) + rest) == Some((JNum(d), rest))
  {
    EncodeStart(JNum(d));
    ParseNumberEncoded(d, rest);
  }

  lemma ParseEncodedString(str: string, rest: string)
    ensures ParseValue(Encode(JStr(str)) + rest) == Some((JStr(str), rest))
  {
    BracketedText("\"", EscapeString(str), "\"", rest);
    ParseValueString(EscapeString(str) + "\"" + rest);
    ParseEscapedString(str, rest);
  }

  /** Null, booleans, numbers and strings read back; none of them contains another value. */
  lemma ParseEncodedScalar(v: Json, rest: string)
    requires Delimited(rest) && !v.JArr? && !v.JObj?
    ensures ParseValue(Encode(v) + rest) == Some((v, rest))
  {
    if v.JNum? {
      ParseEncodedNumber(v.n, rest);
    } else if v.JStr? {
      ParseEncodedString(v.s, rest);
    } else {
      ParseEncodedKeyword(v, rest);
    }
  }

  /** t is the text of v: it starts a value, and v reads back from it whatever delimiter follows. */
  ghost predicate ReadsValue(t: string, v: Json)
  {
    && t != [] && !IsWs(t[0]) && t[0] != ']'
    && forall after :: Delimited(after) ==> ParseValue(t + after) == Some((v, after))
  }

  /** t is the text of member m, and m reads back from it whatever delimiter follows. */
  ghost predicate ReadsMember(t: string, m: Member)
  {
    && t != [] && t[0] == '"'
    && forall after :: Delimited(after) ==> ParseMember(t + after) == Some((m, after))
  }

  lemma ReadValueAt(t: string, v: Json, after: string)
    requires ReadsValue(t, v) && Delimited(after)
    ensures t != [] && !IsWs(t[0])
    ensures ParseValue(t + after) == Some((v, after))
  {
  }

  lemma ReadMemberAt(t: string, m: Member, after: string)
    requires ReadsMember(t, m) && Delimited(after)
    ensures t != [] && !IsWs(t[0])
    ensures ParseMember(t + after) == Some((m, after))
  {
  }

  lemma JoinedItemsLast(texts: seq<string>, items: seq<Json>, rest: string)
    requires |texts| == |items| == 1
    requires ParseValue(texts[0] + ("]" + rest)) == Some((items[0], "]" + rest))
    ensures ParseItems(Joined(texts) + "]" + rest) == Some((items, rest))
  {
    Assoc(texts[0], "]", rest);
    ItemsLast(texts[0] + ("]" + rest), items[0], rest);
    assert [items[0]] == items;
  }

  lemma JoinedItemsNext(texts: seq<string>, items: seq<Json>, rest: string)
    requires |texts| == |items| > 1
    requires ParseValue(texts[0] + ("," + (Joined(texts[1..]) + "]" + rest)))
             == Some((items[0], "," + (Joined(texts[1..]) + "]" + rest)))
    requires texts[1] != [] && !IsWs(texts[1][0])
    requires ParseItems(Joined(texts[1..]) + "]" + rest) == Some((items[1..], rest))
    ensures ParseItems(Joined(texts) + "]" + rest) == Some((items, rest))
  {
    var others := Joined(texts[1..]);
    var tail := others + "]" + rest;
    SeparatedText(texts[0], others, "]", rest);
    JoinedStart(texts[1..]);
    NoWsToSkip(tail);
    ItemsNext(texts[0] + ("," + tail), items[0], tail, items[1..], rest);
    assert [items[0]] + items[1..] == items;
  }

  /** Comma-separated texts of values, closed by a bracket, read back as those values. */
  lemma {:induction false} ParseJoinedItems(texts: seq<string>, items: seq<Json>, rest: string)
    requires |texts| == |items| > 0
    requires forall i :: 0 <= i < |texts| ==> ReadsValue(texts[i], items[i])
    ensures ParseItems(Joined(texts) + "]" + rest) == Some((items, rest))
  {
    if |texts| == 1 {
      ReadValueAt(texts[0], items[0], "]" + rest);
      JoinedItemsLast(texts, items, rest);
    } else {
      ReadValueAt(texts[0], items[0], "," + (Joined(texts[1..]) + "]" + rest));
      ReadValueAt(texts[1], items[1], []);
      ParseJoinedItems(texts[1..], items[1..], rest);
      JoinedItemsNext(texts, items, rest);
    }
  }

  lemma JoinedMembersLast(texts: seq<string>, members: seq<Member>, rest: string)
    requires |texts| == |members| == 1
    requires ParseMember(texts[0] + ("}" + rest)) == Some((members[0], "}" + rest))
    ensures ParseMembers(Joined(texts) + "}" + rest) == Some((members, rest))
  {
    Assoc(texts[0], "}", rest);
    MembersLast(texts[0] + ("}" + rest), members[0], rest);
    assert [members[0]] == members;
  }

  lemma JoinedMembersNext(texts: seq<string>, members: seq<Member>, rest: string)
    requires |texts| == |members| > 1
    requires ParseMember(texts[0] + ("," + (Joined(texts[1..]) + "}" + rest)))
             == Some((members[0], "," + (Joined(texts[1..]) + "}" + rest)))
    requires texts[1] != [] && !IsWs(texts[1][0])
    requires ParseMembers(Joined(texts[1..]) + "}" + rest) == Some((members[1..], rest))
    ensures ParseMembers(Joined(texts) + "}" + rest) == Some((members, rest))
  {
    var others := Joined(texts[1..]);
    var tail := others + "}" + rest;
    SeparatedText(texts[0], others, "}", rest);
    JoinedStart(texts[1..]);
    NoWsToSkip(tail);
    MembersNext(texts[0] + ("," + tail), members[0], tail, members[1..], rest);
    assert [members[0]] + members[1..] == members;
  }

  /** Comma-separated texts of members, closed by a brace, read back as those members. */
  lemma {:induction false} ParseJoinedMembers(texts: seq<string>, members: seq<Member>, rest: string)
    requires |texts| == |members| > 0
    requires forall i :: 0 <= i < |texts| ==> ReadsMember(texts[i], members[i])
    ensures ParseMembers(Joined(texts) + "}" + rest) == Some((members, rest))
  {
    if |texts| == 1 {
      ReadMemberAt(texts[0], members[0], "}" + rest);
      JoinedMembersLast(texts, members, rest);
    } else {
      ReadMemberAt(texts[0], members[0], "," + (Joined(texts[1..]) + "}" + rest));
      ReadMemberAt(texts[1], members[1], []);
      ParseJoinedMembers(texts[1..], members[1..], rest);
      JoinedMembersNext(texts, members, rest);
    }
  }

  lemma {:induction false} ParseEncodedValue(v: Json, rest: string)
    requires Delimited(rest)
    ensures ParseValue(Encode(v) + rest) == Some((v, rest))
    decreases v, 2
  {
    if v.JArr? {
      BracketedText("[", Joined(EncodeAll(v.items)), "]", rest);
      ParseValueArray(Joined(EncodeAll(v.items)) + "]" + rest);
      ParseEncodedArray(v.items, rest);
    } else if v.JObj? {
      BracketedText("{", Joined(EncodeEach(v.members)), "}", rest);
      ParseValueObject(Joined(EncodeEach(v.members)) + "}" + rest);
      ParseEncodedObject(v.members, rest);
    } else {
      ParseEncodedScalar(v, rest);
    }
  }

  lemma {:induction false} ValueReadsBack(v: Json)
    ensures ReadsValue(Encode(v), v)
    decreases v, 3
  {
    EncodeStart(v);
    forall after | Delimited(after)
      ensures ParseValue(Encode(v) + after) == Some((v, after))
    {
      ParseEncodedValue(v, after);
    }
  }

  lemma {:induction false} ParseEncodedArray(items: seq<Json>, rest: string)
    ensures ParseArray(Joined(EncodeAll(items)) + "]" + rest) == Some((JArr(items), rest))
    decreases items, 1
  {
    var texts := EncodeAll(items);
    var t := Joined(texts) + "]" + rest;
    if items == [] {
      assert t == "]" + rest;
      NoWsToSkip(t);
      assert t[1..] == rest;
    } else {
      forall i | 0 <= i < |items|
        ensures ReadsValue(texts[i], items[i])
      {
        ValueReadsBack(items[i]);
      }
      JoinedStart(texts);
      NoWsToSkip(t);
      ParseJoinedItems(texts, items, rest);
    }
  }

  lemma {:induction false} ParseEncodedObject(members: seq<Member>, rest: string)
    ensures ParseObject(Joined(EncodeEach(members)) + "}" + rest) == Some((JObj(members), rest))
    decreases members, 1
  {
    var texts := EncodeEach(members);
    var t := Joined(texts) + "}" + rest;
    if members == [] {
      assert t == "}" + rest;
      NoWsToSkip(t);
      assert t[1..] == rest;
    } else {
      forall i | 0 <= i < |members|
        ensures ReadsMember(texts[i], members[i])
      {
        MemberReadsBack(members[i]);
      }
      JoinedStart(texts);
      NoWsToSkip(t);
      ParseJoinedMembers(texts, members, rest);
    }
  }

  /** One encoded member reads back, up to the text after its value. */
  lemma {:induction false} ParseEncodedMember(m: Member, after: string)
    requires Delimited(after)
    ensures ParseMember(EncodeMember(m) + after) == Some((m, after))
    decreases m.value, 3
  {
    var key := EscapeString(m.key);
    var y := Encode(m.value) + after;
    var x := key + "\"" + (":" + y);
    MemberText(key, Encode(m.value), after);
    ParseEscapedString(m.key, ":" + y);
    EncodeStart(m.value);
    NoWsToSkip(y);
    ParseEncodedValue(m.value, after);
    MemberStep(x, m.key, y, m.value, after);
  }

  lemma {:induction false} MemberReadsBack(m: Member)
    ensures ReadsMember(EncodeMember(m), m)
    decreases m.value, 4
  {
    forall after | Delimited(after)
      ensures ParseMember(EncodeMember(m) + after) == Some((m, after))
    {
      ParseEncodedMember(m, after);
    }
  }

  /** JSON.parse reads an encoded value back as that value. */
  lemma ParseEncode(v: Json)
    ensures Parse(Encode(v)) == Some(v)
  {
    EncodeStart(v);
    NoWsToSkip(Encode(v));
    assert Encode(v) + [] == Encode(v);
    ParseEncodedValue(v, []);
  }
}

/**
 * The text form the bookmark list is stored in: JSON as `JSON.stringify`
 * writes it (no whitespace, integers in decimal, strings quoted with the
 * standard escapes) and a parser for it. The parser reads every text the
 * writer produces back to the same value.
 */
module Json {
  import opened Types

  /** A JSON value restricted to what the plan model needs: integers, strings, arrays, objects. */
  datatype Json =
    | JNumber(n: int)
    | JString(s: string)
    | JArray(items: seq<Json>)
    | JObject(members: seq<Member>)

  /** One `"key":value` pair of an object, in the order it is written. */
  datatype Member = Member(key: string, value: Json)

  // ---------------------------------------------------------------------
  // Numbers
  // ---------------------------------------------------------------------

  predicate IsDigit(c: char)
  {
    '0' <= c <= '9'
  }

  predicate AllDigits(s: string)
  {
    forall i :: 0 <= i < |s| ==> IsDigit(s[i])
  }

  function DigitChar(d: int): (c: char)
    requires 0 <= d < 10
    ensures IsDigit(c) && c as int - '0' as int == d
  {
    (d + '0' as int) as char
  }

  /** The decimal digits of a natural number, without leading zeros. */
  function NatText(n: nat): (r: string)
    ensures |r| > 0 && AllDigits(r)
    ensures |r| > 1 ==> r[0] != '0'
  {
    if n < 10 then [DigitChar(n)] else NatText(n / 10) + [DigitChar(n % 10)]
  }

  /**
   * How an integer is written, both by `JSON.stringify` and by
   * `Number.prototype.toString`: a minus sign for negatives, then the digits.
   */
  function NumberText(n: int): (r: string)
  {
    if n < 0 then "-" + NatText(-n) else NatText(n)
  }

  /** The value of a run of decimal digits. */
  function DigitsValue(ds: string): nat
    requires AllDigits(ds)
  {
    if |ds| == 0 then 0
    else DigitsValue(ds[..|ds| - 1]) * 10 + (ds[|ds| - 1] as int - '0' as int)
  }

  /** The length of the longest run of digits at the start of `s`. */
  function DigitRun(s: string): (k: nat)
    ensures k <= |s|
    ensures forall i :: 0 <= i < k ==> IsDigit(s[i])
    ensures k < |s| ==> !IsDigit(s[k])
  {
    if |s| == 0 || !IsDigit(s[0]) then 0 else 1 + DigitRun(s[1..])
  }

  /**
   * Reads an unsigned integer at the start of `s`: one or more digits, and
   * no leading zero unless the number is zero itself.
   */
  function ParseNat(s: string): (r: Option<(nat, string)>)
    ensures r.Some? ==> |r.value.1| < |s|
    ensures r.Some? ==> r.value.1 == [] || !IsDigit(r.value.1[0])
  {
    var k := DigitRun(s);
    if k == 0 || (k > 1 && s[0] == '0') then None
    else Some((DigitsValue(s[..k]), s[k..]))
  }

  /** Reads an integer at the start of `s`: an optional minus sign, then an unsigned integer. */
  function ParseNumber(s: string): (r: Option<(int, string)>)
    ensures r.Some? ==> |r.value.1| < |s|
  {
    var negative := |s| > 0 && s[0] == '-';
    match ParseNat(if negative then s[1..] else s)
    case None => None
    case Some((v, rest)) => Some((if negative then -(v as int) else v as int, rest))
  }

  lemma {:induction false} DigitsValueOfNatText(n: nat)
    ensures DigitsValue(NatText(n)) == n
  {
    var t := NatText(n);
    if n >= 10 {
      DigitsValueOfNatText(n / 10);
      assert t[..|t| - 1] == NatText(n / 10);
    }
  }

  lemma DigitRunOfDigits(ds: string, rest: string)
    requires AllDigits(ds)
    requires rest == [] || !IsDigit(rest[0])
    ensures DigitRun(ds + rest) == |ds|
    decreases |ds|
  {
    if |ds| > 0 {
      assert (ds + rest)[1..] == ds[1..] + rest;
      DigitRunOfDigits(ds[1..], rest);
    }
  }

  /** The writer and the reader agree on unsigned integers. */
  lemma NatRoundTrip(n: nat, rest: string)
    requires rest == [] || !IsDigit(rest[0])
    ensures ParseNat(NatText(n) + rest) == Some((n, rest))
  {
    var t := NatText(n);
    DigitRunOfDigits(t, rest);
    assert (t + rest)[..|t|] == t;
    assert (t + rest)[|t|..] == rest;
    DigitsValueOfNatText(n);
  }

  lemma ReadSigned(s: string, v: nat, rest: string)
    requires |s| > 0 && s[0] == '-' && ParseNat(s[1..]) == Some((v, rest))
    ensures ParseNumber(s) == Some((-(v as int), rest))
  {
  }

  lemma ReadUnsigned(s: string, v: nat, rest: string)
    requires |s| > 0 && s[0] != '-' && ParseNat(s) == Some((v, rest))
    ensures ParseNumber(s) == Some((v as int, rest))
  {
  }

  /** The writer and the reader agree on integers. */
  lemma NumberRoundTrip(n: int, rest: string)
    requires rest == [] || !IsDigit(rest[0])
    ensures ParseNumber(NumberText(n) + rest) == Some((n, rest))
  {
    if n < 0 {
      var t := NatText(-n);
      var s := "-" + t + rest;
      assert s[1..] == t + rest;
      NatRoundTrip(-n, rest);
      ReadSigned(s, -n, rest);
    } else {
      var t := NatText(n);
      var s := t + rest;
      assert s[0] == t[0] && IsDigit(t[0]);
      NatRoundTrip(n, rest);
      ReadUnsigned(s, n, rest);
    }
  }

  /** Different integers are written differently. */
  lemma NumberTextInjective(a: int, b: int)
    ensures NumberText(a) == NumberText(b) ==> a == b
  {
    if NumberText(a) == NumberText(b) {
      NumberRoundTrip(a, []);
      NumberRoundTrip(b, []);
      assert NumberText(a) + [] == NumberText(a);
      assert NumberText(b) + [] == NumberText(b);
    }
  }

  // ---------------------------------------------------------------------
  // Strings
  // ---------------------------------------------------------------------

  function HexDigit(d: int): (c: char)
    requires 0 <= d < 16
  {
    if d < 10 then (d + '0' as int) as char else (d - 10 + 'a' as int) as char
  }

  /** The value of one hexadecimal digit, either case. */
  function HexValue(c: char): (r: Option<nat>)
    ensures r.Some? ==> r.value < 16
  {
    if '0' <= c <= '9' then Some(c as int - '0' as int)
    else if 'a' <= c <= 'f' then Some(c as int - 'a' as int + 10)
    else if 'A' <= c <= 'F' then Some(c as int - 'A' as int + 10)
    else None
  }

  lemma HexValueOfHexDigit(d: int)
    requires 0 <= d < 16
    ensures HexValue(HexDigit(d)) == Some(d)
  {
  }

  /**
   * How `JSON.stringify` writes one character inside a string: the quote,
   * the backslash and the control characters with short names get a
   * two-character escape, the other control characters a `\u00xx` escape,
   * everything else stands for itself.
   */
  function EscapeChar(c: char): (r: string)
    ensures |r| > 0 && r[0] != '"'
    ensures r[0] == '\\' || (r == [c] && c as int >= 0x20)
  {
    if c == '"' then "\\\""
    else if c == '\\' then "\\\\"
    else if c as int == 0x08 then "\\b"
    else if c as int == 0x0C then "\\f"
    else if c == '\n' then "\\n"
    else if c == '\r' then "\\r"
    else if c == '\t' then "\\t"
    else if c as int < 0x20 then "\\u00" + [HexDigit(c as int / 16), HexDigit(c as int % 16)]
    else [c]
  }

  function Escape(s: string): string
  {
    if |s| == 0 then "" else EscapeChar(s[0]) + Escape(s[1..])
  }

  /** A string literal: the escaped characters between double quotes. */
  function Quote(s: string): string
  {
    "\"" + Escape(s) + "\""
  }

  /** Reads the four hex digits of a `\u` escape; surrogate halves are not characters. */
  function ParseHex4(s: string): (r: Option<(char, string)>)
    ensures r.Some? ==> |s| >= 4 && r.value.1 == s[4..]
  {
    if |s| < 4 then None
    else match (HexValue(s[0]), HexValue(s[1]), HexValue(s[2]), HexValue(s[3]))
      case (Some(a), Some(b), Some(c), Some(d)) =>
        var v := ((a * 16 + b) * 16 + c) * 16 + d;
        if 0xD800 <= v < 0xE000 then None else Some((v as char, s[4..]))
      case _ => None
  }

  /**
   * Reads one character of a string literal that is not its closing quote:
   * an escape sequence, or any character other than a raw control character.
   */
  function ParseChar(s: string): (r: Option<(char, string)>)
    requires |s| > 0
    ensures r.Some? ==> |r.value.1| < |s|
  {
    if s[0] == '\\' then
      if |s| < 2 then None
      else if s[1] == '"' then Some(('"', s[2..]))
      else if s[1] == '\\' then Some(('\\', s[2..]))
      else if s[1] == '/' then Some(('/', s[2..]))
      else if s[1] == 'b' then Some((0x08 as char, s[2..]))
      else if s[1] == 'f' then Some((0x0C as char, s[2..]))
      else if s[1] == 'n' then Some(('\n', s[2..]))
      else if s[1] == 'r' then Some(('\r', s[2..]))
      else if s[1] == 't' then Some(('\t', s[2..]))
      else if s[1] == 'u' then ParseHex4(s[2..])
      else None
    else if s[0] as int < 0x20 then None
    else Some((s[0], s[1..]))
  }

  /** Reads the characters of a string literal up to and including its closing quote. */
  function ParseChars(s: string): (r: Option<(string, string)>)
    ensures r.Some? ==> |r.value.1| < |s|
    decreases |s|
  {
    if |s| == 0 then None
    else if s[0] == '"' then Some(("", s[1..]))
    else match ParseChar(s)
      case None => None
      case Some((c, rest)) =>
        match ParseChars(rest)
        case None => None
        case Some((cs, rest')) => Some(([c] + cs, rest'))
  }

  lemma EscapeCharRoundTrip(c: char, rest: string)
    ensures ParseChar(EscapeChar(c) + rest) == Some((c, rest))
  {
    var e := EscapeChar(c);
    var s := e + rest;
    if c as int < 0x20 && c != '\n' && c != '\r' && c != '\t' && c as int != 0x08 && c as int != 0x0C {
      var hi, lo := c as int / 16, c as int % 16;
      HexValueOfHexDigit(0);
      HexValueOfHexDigit(hi);
      HexValueOfHexDigit(lo);
      assert s[2..] == "00" + [HexDigit(hi), HexDigit(lo)] + rest;
      assert s[2..][4..] == rest;
    } else if e[0] == '\\' {
      assert s[2..] == rest;
    } else {
      assert s[1..] == rest;
    }
  }

  /** The writer and the reader agree on string literals. */
  lemma {:induction false} CharsRoundTrip(str: string, rest: string)
    ensures ParseChars(Escape(str) + "\"" + rest) == Some((str, rest))
  {
    if |str| == 0 {
      assert Escape(str) + "\"" + rest == "\"" + rest;
      assert ("\"" + rest)[1..] == rest;
    } else {
      var e := EscapeChar(str[0]);
      var tail := Escape(str[1..]) + "\"" + rest;
      assert Escape(str) + "\"" + rest == e + tail;
      EscapeCharRoundTrip(str[0], tail);
      CharsRoundTrip(str[1..], rest);
      assert [str[0]] + str[1..] == str;
    }
  }

  // ---------------------------------------------------------------------
  // Values
  // ---------------------------------------------------------------------

  /** The text `JSON.stringify` writes for a value. */
  function Stringify(j: Json): string
  {
    match j
    case JNumber(n) => NumberText(n)
    case JString(s) => Quote(s)
    case JArray(items) => "[" + Elements(items) + "]"
    case JObject(ms) => "{" + Members(ms) + "}"
  }

  /** The items of an array, separated by commas. */
  function Elements(items: seq<Json>): string
  {
    if |items| == 0 then ""
    else if |items| == 1 then Stringify(items[0])
    else Stringify(items[0]) + "," + Elements(items[1..])
  }

  /** The members of an object, separated by commas. */
  function Members(ms: seq<Member>): string
  {
    if |ms| == 0 then ""
    else if |ms| == 1 then MemberText(ms[0])
    else MemberText(ms[0]) + "," + Members(ms[1..])
  }

  function MemberText(m: Member): string
  {
    Quote(m.key) + ":" + Stringify(m.value)
  }

  /** Reads one value at the start of `s`, returning it and the text after it. */
  function ParseValue(s: string): (r: Option<(Json, string)>)
    ensures r.Some? ==> |r.value.1| < |s|
    decreases |s|, 0
  {
    if |s| == 0 then None
    else if s[0] == '"' then
      match ParseChars(s[1..])
      case None => None
      case Some((str, rest)) => Some((JString(str), rest))
    else if s[0] == '[' then
      if |s| > 1 && s[1] == ']' then Some((JArray([]), s[2..]))
      else
        match ParseElements(s[1..])
        case None => None
        case Some((items, rest)) => Some((JArray(items), rest))
    else if s[0] == '{' then
      if |s| > 1 && s[1] == '}' then Some((JObject([]), s[2..]))
      else
        match ParseMembers(s[1..])
        case None => None
        case Some((ms, rest)) => Some((JObject(ms), rest))
    else
      match ParseNumber(s)
      case None => None
      case Some((n, rest)) => Some((JNumber(n), rest))
  }

  /** Reads one or more comma-separated values and the closing bracket. */
  function ParseElements(s: string): (r: Option<(seq<Json>, string)>)
    ensures r.Some? ==> |r.value.1| < |s|
    decreases |s|, 1
  {
    match ParseValue(s)
    case None => None
    case Some((v, rest)) =>
      if |rest| > 0 && rest[0] == ']' then Some(([v], rest[1..]))
      else if |rest| > 0 && rest[0] == ',' then
        match ParseElements(rest[1..])
        case None => None
        case Some((vs, rest')) => Some(([v] + vs, rest'))
      else None
  }

  /** Reads one `"key":value` pair. */
  function ParseMember(s: string): (r: Option<(Member, string)>)
    ensures r.Some? ==> |r.value.1| < |s|
    decreases |s|, 1
  {
    if |s| == 0 || s[0] != '"' then None
    else match ParseChars(s[1..])
      case None => None
      case Some((key, rest)) =>
        if |rest| == 0 || rest[0] != ':' then None
        else match ParseValue(rest[1..])
          case None => None
          case Some((v, rest')) => Some((Member(key, v), rest'))
  }

  /** Reads one or more comma-separated members and the closing brace. */
  function ParseMembers(s: string): (r: Option<(seq<Member>, string)>)
    ensures r.Some? ==> |r.value.1| < |s|
    decreases |s|, 2
  {
    match ParseMember(s)
    case None => None
    case Some((m, rest)) =>
      if |rest| > 0 && rest[0] == '}' then Some(([m], rest[1..]))
      else if |rest| > 0 && rest[0] == ',' then
        match ParseMembers(rest[1..])
        case None => None
        case Some((ms, rest')) => Some(([m] + ms, rest'))
      else None
  }

  /** `JSON.parse` on the whole text: one value and nothing after it. */
  function Parse(text: string): Option<Json>
  {
    match ParseValue(text)
    case Some((j, rest)) => if rest == [] then Some(j) else None
    case None => None
  }

  /** What may follow a value in written JSON: the end, a comma, or a closing bracket or brace. */
  predicate Follows(rest: string)
  {
    rest == [] || rest[0] == ',' || rest[0] == ']' || rest[0] == '}'
  }

  // Single parsing steps, stated on an arbitrary text so that the round-trip
  // proofs below need not unfold the parser on written text.

  lemma ReadString(s: string, str: string, rest: string)
    requires |s| > 0 && s[0] == '"' && ParseChars(s[1..]) == Some((str, rest))
    ensures ParseValue(s) == Some((JString(str), rest))
  {
  }

  lemma ReadNumber(s: string, n: int, rest: string)
    requires |s| > 0 && s[0] != '"' && s[0] != '[' && s[0] != '{'
    requires ParseNumber(s) == Some((n, rest))
    ensures ParseValue(s) == Some((JNumber(n), rest))
  {
  }

  lemma ReadEmpty(s: string, rest: string)
    requires |s| >= 2 && ((s[0] == '[' && s[1] == ']') || (s[0] == '{' && s[1] == '}')) && rest == s[2..]
    ensures s[0] == '[' ==> ParseValue(s) == Some((JArray([]), rest))
    ensures s[0] == '{' ==> ParseValue(s) == Some((JObject([]), rest))
  {
  }

  lemma ReadArray(s: string, items: seq<Json>, rest: string)
    requires |s| > 1 && s[0] == '[' && s[1] != ']' && ParseElements(s[1..]) == Some((items, rest))
    ensures ParseValue(s) == Some((JArray(items), rest))
  {
  }

  lemma ReadObject(s: string, ms: seq<Member>, rest: string)
    requires |s| > 1 && s[0] == '{' && s[1] != '}' && ParseMembers(s[1..]) == Some((ms, rest))
    ensures ParseValue(s) == Some((JObject(ms), rest))
  {
  }

  lemma ReadLastElement(s: string, v: Json, rest: string)
    requires ParseValue(s) == Some((v, "]" + rest))
    ensures ParseElements(s) == Some(([v], rest))
  {
    assert ("]" + rest)[1..] == rest;
  }

  lemma ReadNextElement(s: string, v: Json, tail: string, vs: seq<Json>, rest: string)
    requires ParseValue(s) == Some((v, "," + tail)) && ParseElements(tail) == Some((vs, rest))
    ensures ParseElements(s) == Some(([v] + vs, rest))
  {
    assert ("," + tail)[1..] == tail;
  }

  lemma ReadMember(s: string, key: string, afterKey: string, v: Json, rest: string)
    requires |s| > 0 && s[0] == '"' && ParseChars(s[1..]) == Some((key, afterKey))
    requires |afterKey| > 0 && afterKey[0] == ':' && ParseValue(afterKey[1..]) == Some((v, rest))
    ensures ParseMember(s) == Some((Member(key, v), rest))
  {
  }

  lemma ReadLastMember(s: string, m: Member, rest: string)
    requires ParseMember(s) == Some((m, "}" + rest))
    ensures ParseMembers(s) == Some(([m], rest))
  {
    assert ("}" + rest)[1..] == rest;
  }

  lemma ReadNextMember(s: string, m: Member, tail: string, ms: seq<Member>, rest: string)
    requires ParseMember(s) == Some((m, "," + tail)) && ParseMembers(tail) == Some((ms, rest))
    ensures ParseMembers(s) == Some(([m] + ms, rest))
  {
    assert ("," + tail)[1..] == tail;
  }

  /** Where the text of a list of two or more members splits after the first. */
  lemma SplitMembers(ms: seq<Member>, rest: string)
    requires |ms| > 1
    ensures Members(ms) + "}" + rest == MemberText(ms[0]) + ("," + (Members(ms[1..]) + "}" + rest))
  {
    var first, others := MemberText(ms[0]), Members(ms[1..]);
    assert Members(ms) == first + "," + others;
    Regroup(first, ",", others, "}", rest);
  }

  /** Where the text of a list of two or more items splits after the first. */
  lemma SplitElements(items: seq<Json>, rest: string)
    requires |items| > 1
    ensures Elements(items) + "]" + rest == Stringify(items[0]) + ("," + (Elements(items[1..]) + "]" + rest))
  {
    var first, others := Stringify(items[0]), Elements(items[1..]);
    assert Elements(items) == first + "," + others;
    Regroup(first, ",", others, "]", rest);
  }

  lemma Regroup(a: string, b: string, c: string, d: string, e: string)
    ensures a + b + c + d + e == a + (b + (c + d + e))
  {
  }

  lemma {:induction false} ValueRoundTrip(j: Json, rest: string)
    requires Follows(rest)
    ensures ParseValue(Stringify(j) + rest) == Some((j, rest))
    decreases j, 0
  {
    match j
    case JNumber(n) => NumberValueRoundTrip(n, rest);
    case JString(str) => StringValueRoundTrip(str, rest);
    case JArray(items) => ArrayRoundTrip(items, rest);
    case JObject(ms) => ObjectRoundTrip(ms, rest);
  }

  lemma NumberValueRoundTrip(n: int, rest: string)
    requires Follows(rest)
    ensures ParseValue(Stringify(JNumber(n)) + rest) == Some((JNumber(n), rest))
  {
    var s := NumberText(n) + rest;
    NumberRoundTrip(n, rest);
    if n >= 0 {
      assert s[0] == NatText(n)[0];
      assert IsDigit(s[0]);
    }
    ReadNumber(s, n, rest);
  }

  lemma StringValueRoundTrip(str: string, rest: string)
    ensures ParseValue(Stringify(JString(str)) + rest) == Some((JString(str), rest))
  {
    var s := Quote(str) + rest;
    assert s == "\"" + (Escape(str) + "\"" + rest);
    assert s[1..] == Escape(str) + "\"" + rest;
    CharsRoundTrip(str, rest);
    ReadString(s, str, rest);
  }

  lemma {:induction false} ArrayRoundTrip(items: seq<Json>, rest: string)
    requires Follows(rest)
    ensures ParseValue(Stringify(JArray(items)) + rest) == Some((JArray(items), rest))
    decreases items, 3
  {
    if |items| == 0 {
      var s := "[]" + rest;
      assert Stringify(JArray(items)) + rest == s;
      ReadEmpty(s, rest);
    } else {
      FullArrayRoundTrip(items, rest);
    }
  }

  lemma {:induction false} FullArrayRoundTrip(items: seq<Json>, rest: string)
    requires |items| > 0
    requires Follows(rest)
    ensures ParseValue(Stringify(JArray(items)) + rest) == Some((JArray(items), rest))
    decreases items, 2
  {
    var body := Elements(items) + "]" + rest;
    var s := "[" + body;
    assert Stringify(JArray(items)) + rest == s;
    ElementsRoundTrip(items, rest);
    ElementsStart(items);
    assert s[1..] == body && s[1] == Elements(items)[0];
    ReadArray(s, items, rest);
  }

  lemma {:induction false} ObjectRoundTrip(ms: seq<Member>, rest: string)
    requires Follows(rest)
    ensures ParseValue(Stringify(JObject(ms)) + rest) == Some((JObject(ms), rest))
    decreases ms, 3
  {
    if |ms| == 0 {
      var s := "{}" + rest;
      assert Stringify(JObject(ms)) + rest == s;
      ReadEmpty(s, rest);
    } else {
      FullObjectRoundTrip(ms, rest);
    }
  }

  lemma {:induction false} FullObjectRoundTrip(ms: seq<Member>, rest: string)
    requires |ms| > 0
    requires Follows(rest)
    ensures ParseValue(Stringify(JObject(ms)) + rest) == Some((JObject(ms), rest))
    decreases ms, 2
  {
    var body := Members(ms) + "}" + rest;
    var s := "{" + body;
    assert Stringify(JObject(ms)) + rest == s;
    MembersRoundTrip(ms, rest);
    MembersStart(ms);
    assert s[1..] == body && s[1] == Members(ms)[0];
    ReadObject(s, ms, rest);
  }

  /** Written array items never start with a closing bracket. */
  lemma ElementsStart(items: seq<Json>)
    requires |items| > 0
    ensures |Elements(items)| > 0 && Elements(items)[0] != ']'
  {
    StringifyStart(items[0]);
    if |items| > 1 {
      assert Elements(items)[0] == Stringify(items[0])[0];
    }
  }

  /** Written object members start with the quote of their key. */
  lemma MembersStart(ms: seq<Member>)
    requires |ms| > 0
    ensures |Members(ms)| > 0 && Members(ms)[0] == '"'
  {
    assert MemberText(ms[0])[0] == '"';
    if |ms| > 1 {
      assert Members(ms)[0] == MemberText(ms[0])[0];
    }
  }

  /** A written value never starts with a closing bracket. */
  lemma StringifyStart(j: Json)
    ensures |Stringify(j)| > 0 && Stringify(j)[0] != ']'
  {
    match j
    case JNumber(n) =>
      if n >= 0 {
        assert IsDigit(NatText(n)[0]);
      }
    case JString(_) =>
    case JArray(_) =>
    case JObject(_) =>
  }

  lemma {:induction false} ElementsRoundTrip(items: seq<Json>, rest: string)
    requires |items| > 0
    requires Follows(rest)
    ensures ParseElements(Elements(items) + "]" + rest) == Some((items, rest))
    decreases items, 1
  {
    if |items| == 1 {
      LastElementRoundTrip(items, rest);
    } else {
      NextElementRoundTrip(items, rest);
    }
  }

  lemma {:induction false} LastElementRoundTrip(items: seq<Json>, rest: string)
    requires |items| == 1
    requires Follows(rest)
    ensures ParseElements(Elements(items) + "]" + rest) == Some((items, rest))
    decreases items, 0
  {
    var s := Stringify(items[0]) + ("]" + rest);
    assert Elements(items) + "]" + rest == s;
    ValueRoundTrip(items[0], "]" + rest);
    ReadLastElement(s, items[0], rest);
    assert [items[0]] == items;
  }

  lemma {:induction false} NextElementRoundTrip(items: seq<Json>, rest: string)
    requires |items| > 1
    requires Follows(rest)
    ensures ParseElements(Elements(items) + "]" + rest) == Some((items, rest))
    decreases items, 0
  {
    var tail := Elements(items[1..]) + "]" + rest;
    var s := Stringify(items[0]) + ("," + tail);
    SplitElements(items, rest);
    ValueRoundTrip(items[0], "," + tail);
    ElementsRoundTrip(items[1..], rest);
    ReadNextElement(s, items[0], tail, items[1..], rest);
    assert [items[0]] + items[1..] == items;
  }

  lemma {:induction false} MemberRoundTrip(m: Member, rest: string)
    requires Follows(rest)
    ensures ParseMember(MemberText(m) + rest) == Some((m, rest))
    decreases m, 0
  {
    var s := MemberText(m) + rest;
    var afterKey := ":" + (Stringify(m.value) + rest);
    assert s == "\"" + (Escape(m.key) + "\"" + afterKey);
    assert s[1..] == Escape(m.key) + "\"" + afterKey;
    CharsRoundTrip(m.key, afterKey);
    assert afterKey[1..] == Stringify(m.value) + rest;
    ValueRoundTrip(m.value, rest);
    ReadMember(s, m.key, afterKey, m.value, rest);
  }

  lemma {:induction false} MembersRoundTrip(ms: seq<Member>, rest: string)
    requires |ms| > 0
    requires Follows(rest)
    ensures ParseMembers(Members(ms) + "}" + rest) == Some((ms, rest))
    decreases ms, 1
  {
    if |ms| == 1 {
      LastMemberRoundTrip(ms, rest);
    } else {
      NextMemberRoundTrip(ms, rest);
    }
  }

  lemma {:induction false} LastMemberRoundTrip(ms: seq<Member>, rest: string)
    requires |ms| == 1
    requires Follows(rest)
    ensures ParseMembers(Members(ms) + "}" + rest) == Some((ms, rest))
    decreases ms, 0
  {
    var s := MemberText(ms[0]) + ("}" + rest);
    assert Members(ms) + "}" + rest == s;
    MemberRoundTrip(ms[0], "}" + rest);
    ReadLastMember(s, ms[0], rest);
    assert [ms[0]] == ms;
  }

  lemma {:induction false} NextMemberRoundTrip(ms: seq<Member>, rest: string)
    requires |ms| > 1
    requires Follows(rest)
    ensures ParseMembers(Members(ms) + "}" + rest) == Some((ms, rest))
    decreases ms, 0
  {
    var tail := Members(ms[1..]) + "}" + rest;
    var s := MemberText(ms[0]) + ("," + tail);
    SplitMembers(ms, rest);
    MemberRoundTrip(ms[0], "," + tail);
    MembersRoundTrip(ms[1..], rest);
    ReadNextMember(s, ms[0], tail, ms[1..], rest);
    assert [ms[0]] + ms[1..] == ms;
  }

  /** Reading back what was written gives the value that was written. */
  lemma ParseStringify(j: Json)
    ensures Parse(Stringify(j)) == Some(j)
  {
    ValueRoundTrip(j, []);
    assert Stringify(j) + [] == Stringify(j);
  }

  /**
   * The value of a key in an object as `JSON.parse` keeps it: when a key
   * occurs more than once, the last occurrence wins.
   */
  function Field(ms: seq<Member>, key: string): (r: Option<Json>)
    ensures r.Some? <==> exists i :: 0 <= i < |ms| && ms[i].key == key
  {
    if |ms| == 0 then None
    else if ms[|ms| - 1].key == key then Some(ms[|ms| - 1].value)
    else Field(ms[..|ms| - 1], key)
  }

  /** A key that occurs once is looked up to its own value. */
  lemma {:induction false} FieldOfUnique(ms: seq<Member>, i: int)
    requires 0 <= i < |ms|
    requires forall k :: i < k < |ms| ==> ms[k].key != ms[i].key
    ensures Field(ms, ms[i].key) == Some(ms[i].value)
    decreases |ms|
  {
    if i < |ms| - 1 {
      FieldOfUnique(ms[..|ms| - 1], i);
    }
  }
}

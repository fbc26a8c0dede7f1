/**
 * The text Rust's formatting machinery produces for the values the error
 * templates interpolate: `{}` and `{:?}` of unsigned integers, `{:?}` of
 * vectors and options of integers, and `{:?}` of a path. Each renderer has a
 * parser beside it, and a round-trip lemma says the parser reads back exactly
 * what was rendered; this is how the error module proves that a message keeps
 * every field it was given.
 */
module Fmt {
  import opened Prelude

  predicate IsDigit(c: char) { '0' <= c <= '9' }

  predicate AllDigits(s: string) { forall i :: 0 <= i < |s| ==> IsDigit(s[i]) }

  /** Text that may follow a number without being read as more of its digits. */
  predicate Delimits(rest: string) { rest == [] || !IsDigit(rest[0]) }

  /** A literal template piece that ends whatever was printed before it. */
  predicate Separates(piece: string) { piece != [] && !IsDigit(piece[0]) }

  function DigitChar(d: nat): (c: char)
    requires d < 10
    ensures IsDigit(c) && c as int - '0' as int == d
  {
    ('0' as int + d) as char
  }

  // ---------------------------------------------------------------------------
  // Unsigned integers

  /** `{}` and `{:?}` of an unsigned integer: its decimal digits, no sign, no padding. */
  function Decimal(n: nat): (s: string)
    ensures s != [] && AllDigits(s)
    ensures n < 10 <==> |s| == 1
    decreases n
  {
    if n < 10 then [DigitChar(n)] else Decimal(n / 10) + [DigitChar(n % 10)]
  }

  /** The number a string of decimal digits denotes. */
  function DigitsValue(s: string): nat
    requires AllDigits(s)
  {
    if s == [] then 0 else DigitsValue(s[..|s| - 1]) * 10 + (s[|s| - 1] as int - '0' as int)
  }

  /** How many decimal digits `s` starts with. */
  function LeadingDigits(s: string): (k: nat)
    ensures k <= |s| && AllDigits(s[..k])
    ensures k < |s| ==> !IsDigit(s[k])
  {
    if s != [] && IsDigit(s[0]) then
      var k := 1 + LeadingDigits(s[1..]);
      assert s[..k] == [s[0]] + s[1..][..k - 1];
      k
    else 0
  }

  /** Reads the longest run of digits at the front of `s` as a number. */
  function ParseDecimal(s: string): (r: Option<(nat, string)>)
    ensures r.Some? ==> |r.value.1| < |s| && Delimits(r.value.1)
  {
    var k := LeadingDigits(s);
    if k == 0 then None else Some((DigitsValue(s[..k]), s[k..]))
  }

  lemma {:induction false} DecimalValue(n: nat)
    ensures DigitsValue(Decimal(n)) == n
    decreases n
  {
    if n >= 10 {
      var s := Decimal(n);
      assert s[..|s| - 1] == Decimal(n / 10);
      DecimalValue(n / 10);
    }
  }

  lemma {:induction false} LeadingDigitsOfDigits(ds: string, rest: string)
    requires AllDigits(ds) && Delimits(rest)
    ensures LeadingDigits(ds + rest) == |ds|
    decreases |ds|
  {
    if ds == [] {
      assert ds + rest == rest;
    } else {
      assert (ds + rest)[1..] == ds[1..] + rest;
      LeadingDigitsOfDigits(ds[1..], rest);
    }
  }

  /** Reading back a printed number gives the number and leaves what followed it. */
  lemma ParseDecimalRoundTrip(n: nat, rest: string)
    requires Delimits(rest)
    ensures ParseDecimal(Decimal(n) + rest) == Some((n, rest))
  {
    var d := Decimal(n);
    LeadingDigitsOfDigits(d, rest);
    assert (d + rest)[..|d|] == d;
    assert (d + rest)[|d|..] == rest;
    DecimalValue(n);
  }

  /** Distinct numbers print differently. */
  lemma DecimalInjective(m: nat, n: nat)
    requires Decimal(m) == Decimal(n)
    ensures m == n
  {
    DecimalValue(m);
    DecimalValue(n);
  }

  // ---------------------------------------------------------------------------
  // Derived `Debug` of integers, options and vectors

  /** Removes a literal piece from the front of `s`. */
  function StripPrefix(piece: string, s: string): (r: Option<string>)
    ensures r.Some? ==> s == piece + r.value
  {
    if piece <= s then Some(s[|piece|..]) else None
  }

  lemma StripPrefixOf(piece: string, rest: string)
    ensures StripPrefix(piece, piece + rest) == Some(rest)
  {
    assert (piece + rest)[..|piece|] == piece;
    assert (piece + rest)[|piece|..] == rest;
  }

  /** The values derived `Debug` prints inside the dimension-mismatch error. */
  datatype DebugValue =
    | Int(n: nat)                       // `3`
    | NoneValue                         // `None`
    | SomeValue(inner: DebugValue)      // `Some(3)`
    | List(items: seq<DebugValue>)      // `[1, 3, 224]`

  /** Items of a vector as `{:?}` separates them. */
  function Join(parts: seq<string>): string
  {
    if |parts| == 0 then ""
    else if |parts| == 1 then parts[0]
    else parts[0] + ", " + Join(parts[1..])
  }

  function Debug(v: DebugValue): (s: string)
    ensures s != [] && s[0] != ']'
  {
    match v
    case Int(n) => Decimal(n)
    case NoneValue => "None"
    case SomeValue(x) => "Some(" + Debug(x) + ")"
    case List(xs) => "[" + Join(seq(|xs|, i requires 0 <= i < |xs| => Debug(xs[i]))) + "]"
  }

  function Parts(xs: seq<DebugValue>): (ps: seq<string>)
    ensures |ps| == |xs|
  {
    seq(|xs|, i requires 0 <= i < |xs| => Debug(xs[i]))
  }

  function ParseValue(s: string): (r: Option<(DebugValue, string)>)
    ensures r.Some? ==> |r.value.1| < |s|
    decreases |s|, 0
  {
    if s == [] then None
    else if IsDigit(s[0]) then
      var (n, rest) :- ParseDecimal(s);
      Some((Int(n), rest))
    else if s[0] == 'N' then
      var rest :- StripPrefix("None", s);
      Some((NoneValue, rest))
    else if s[0] == 'S' then
      var t :- StripPrefix("Some(", s);
      var (x, rest) :- ParseValue(t);
      var rest' :- StripPrefix(")", rest);
      Some((SomeValue(x), rest'))
    else if s[0] == '[' then
      if |s| >= 2 && s[1] == ']' then
        Some((List([]), s[2..]))
      else
        var (xs, rest) :- ParseItems(s[1..]);
        Some((List(xs), rest))
    else
      None
  }

  /** Reads `item, item, ..., item]`, one item at least, and what follows the bracket. */
  function ParseItems(s: string): (r: Option<(seq<DebugValue>, string)>)
    ensures r.Some? ==> |r.value.1| < |s|
    decreases |s|, 1
  {
    var (x, rest) :- ParseValue(s);
    if rest != [] && rest[0] == ']' then
      Some(([x], rest[1..]))
    else
      var tail :- StripPrefix(", ", rest);
      var (xs, rest') :- ParseItems(tail);
      Some(([x] + xs, rest'))
  }

  /** `v` is read back from its own text whatever follows, as long as it is not a digit. */
  ghost predicate RoundTrips(v: DebugValue)
  {
    forall rest :: Delimits(rest) ==> ParseValue(Debug(v) + rest) == Some((v, rest))
  }

  ghost predicate AllRoundTrip(xs: seq<DebugValue>)
  {
    xs == [] || (RoundTrips(xs[0]) && AllRoundTrip(xs[1..]))
  }

  lemma {:induction false} AllRoundTripOfEach(xs: seq<DebugValue>)
    requires forall i :: 0 <= i < |xs| ==> RoundTrips(xs[i])
    ensures AllRoundTrip(xs)
    decreases |xs|
  {
    if xs != [] {
      assert RoundTrips(xs[0]);
      forall i | 0 <= i < |xs[1..]| ensures RoundTrips(xs[1..][i]) {
        assert xs[1..][i] == xs[i + 1];
      }
      AllRoundTripOfEach(xs[1..]);
    }
  }

  lemma DebugList(xs: seq<DebugValue>)
    ensures Debug(List(xs)) == "[" + Join(Parts(xs)) + "]"
  {
    assert Parts(xs) == seq(|xs|, i requires 0 <= i < |xs| => Debug(xs[i]));
  }

  lemma ParseBeforeDelimiter(x: DebugValue, rest: string)
    requires RoundTrips(x) && Delimits(rest)
    ensures ParseValue(Debug(x) + rest) == Some((x, rest))
  {
  }

  lemma ParseLastItem(x: DebugValue, rest: string)
    requires ParseValue(Debug(x) + ("]" + rest)) == Some((x, "]" + rest))
    ensures ParseItems(Debug(x) + ("]" + rest)) == Some(([x], rest))
  {
    assert ("]" + rest)[0] == ']' && ("]" + rest)[1..] == rest;
  }

  lemma ParseNextItem(x: DebugValue, tail: string, xs: seq<DebugValue>, rest: string)
    requires ParseValue(Debug(x) + (", " + tail)) == Some((x, ", " + tail))
    requires ParseItems(tail) == Some((xs, rest))
    ensures ParseItems(Debug(x) + (", " + tail)) == Some(([x] + xs, rest))
  {
    assert (", " + tail)[0] == ',';
    StripPrefixOf(", ", tail);
  }

  lemma JoinFront(xs: seq<DebugValue>, rest: string)
    requires |xs| > 1
    ensures Join(Parts(xs)) + "]" + rest == Debug(xs[0]) + (", " + (Join(Parts(xs[1..])) + "]" + rest))
  {
    assert Parts(xs)[1..] == Parts(xs[1..]);
  }

  lemma ParseSingleItem(xs: seq<DebugValue>, rest: string)
    requires |xs| == 1 && AllRoundTrip(xs)
    ensures ParseItems(Join(Parts(xs)) + "]" + rest) == Some((xs, rest))
  {
    assert Join(Parts(xs)) + "]" + rest == Debug(xs[0]) + ("]" + rest);
    ParseBeforeDelimiter(xs[0], "]" + rest);
    ParseLastItem(xs[0], rest);
    assert [xs[0]] == xs;
  }

  lemma ParseFrontItem(xs: seq<DebugValue>, rest: string)
    requires |xs| > 1 && AllRoundTrip(xs)
    requires ParseItems(Join(Parts(xs[1..])) + "]" + rest) == Some((xs[1..], rest))
    ensures ParseItems(Join(Parts(xs)) + "]" + rest) == Some((xs, rest))
  {
    var tail := Join(Parts(xs[1..])) + "]" + rest;
    JoinFront(xs, rest);
    ParseBeforeDelimiter(xs[0], ", " + tail);
    ParseNextItem(xs[0], tail, xs[1..], rest);
    assert [xs[0]] + xs[1..] == xs;
  }

  lemma {:induction false} ParseItemsRoundTrip(xs: seq<DebugValue>, rest: string)
    requires xs != [] && AllRoundTrip(xs)
    ensures ParseItems(Join(Parts(xs)) + "]" + rest) == Some((xs, rest))
    decreases |xs|
  {
    if |xs| == 1 {
      ParseSingleItem(xs, rest);
    } else {
      ParseItemsRoundTrip(xs[1..], rest);
      ParseFrontItem(xs, rest);
    }
  }

  lemma ParseNoneRoundTrip(rest: string)
    ensures ParseValue(Debug(NoneValue) + rest) == Some((NoneValue, rest))
  {
    assert ("None" + rest)[0] == 'N';
    StripPrefixOf("None", rest);
  }

  lemma ParseSomeRoundTrip(x: DebugValue, rest: string)
    requires ParseValue(Debug(x) + (")" + rest)) == Some((x, ")" + rest))
    ensures ParseValue(Debug(SomeValue(x)) + rest) == Some((SomeValue(x), rest))
  {
    var t := Debug(x) + (")" + rest);
    assert Debug(SomeValue(x)) + rest == "Some(" + t;
    assert ("Some(" + t)[0] == 'S';
    StripPrefixOf("Some(", t);
    StripPrefixOf(")", rest);
  }

  /** Reading back a printed value gives the value and leaves what followed it. */
  lemma {:induction false} ParseValueRoundTrip(v: DebugValue, rest: string)
    requires Delimits(rest)
    ensures ParseValue(Debug(v) + rest) == Some((v, rest))
    decreases v
  {
    match v
    case Int(n) =>
      ParseDecimalRoundTrip(n, rest);
    case NoneValue =>
      ParseNoneRoundTrip(rest);
    case SomeValue(x) =>
      ParseValueRoundTrip(x, ")" + rest);
      ParseSomeRoundTrip(x, rest);
    case List(xs) =>
      forall i | 0 <= i < |xs| ensures RoundTrips(xs[i]) {
        forall r | Delimits(r) ensures ParseValue(Debug(xs[i]) + r) == Some((xs[i], r)) {
          ParseValueRoundTrip(xs[i], r);
        }
      }
      AllRoundTripOfEach(xs);
      ParseListRoundTrip(xs, rest);
  }

  lemma ParseOpenBracket(s: string, xs: seq<DebugValue>, rest: string)
    requires |s| >= 2 && s[0] == '[' && s[1] != ']'
    requires ParseItems(s[1..]) == Some((xs, rest))
    ensures ParseValue(s) == Some((List(xs), rest))
  {
  }

  lemma ParseEmptyList(rest: string)
    ensures ParseValue("[]" + rest) == Some((List([]), rest))
  {
    var s := "[]" + rest;
    assert s[0] == '[' && s[1] == ']' && s[2..] == rest;
  }

  lemma ParseListRoundTrip(xs: seq<DebugValue>, rest: string)
    requires AllRoundTrip(xs)
    ensures ParseValue(Debug(List(xs)) + rest) == Some((List(xs), rest))
  {
    DebugList(xs);
    if xs == [] {
      assert Debug(List(xs)) + rest == "[]" + rest;
      ParseEmptyList(rest);
    } else {
      var s := "[" + (Join(Parts(xs)) + "]" + rest);
      assert Debug(List(xs)) + rest == s;
      assert s[1..] == Join(Parts(xs)) + "]" + rest;
      assert s[1] == Debug(xs[0])[0];
      ParseItemsRoundTrip(xs, rest);
      ParseOpenBracket(s, xs, rest);
    }
  }

  // ---------------------------------------------------------------------------
  // Templates


  /** A message laid out as literal, number, literal, number, literal. */
  function TwoNumbers(pieces: seq<string>, a: nat, b: nat): string
    requires |pieces| == 3
  {
    pieces[0] + (Decimal(a) + (pieces[1] + (Decimal(b) + pieces[2])))
  }

  function ParseTwoNumbers(pieces: seq<string>, s: string): Option<(nat, nat)>
    requires |pieces| == 3
  {
    var s1 :- StripPrefix(pieces[0], s);
    var (a, s2) :- ParseDecimal(s1);
    var s3 :- StripPrefix(pieces[1], s2);
    var (b, s4) :- ParseDecimal(s3);
    if s4 == pieces[2] then Some((a, b)) else None
  }

  lemma TwoNumbersRoundTrip(pieces: seq<string>, a: nat, b: nat)
    requires |pieces| == 3 && Separates(pieces[1]) && Delimits(pieces[2])
    ensures ParseTwoNumbers(pieces, TwoNumbers(pieces, a, b)) == Some((a, b))
  {
    var tail := Decimal(b) + pieces[2];
    var mid := pieces[1] + tail;
    StripPrefixOf(pieces[0], Decimal(a) + mid);
    ParseDecimalRoundTrip(a, mid);
    StripPrefixOf(pieces[1], tail);
    ParseDecimalRoundTrip(b, pieces[2]);
  }

  /**
   * A message laid out as literal, number, literal, number, literal, `Debug`
   * value, literal, `Debug` value, literal.
   */
  function FourFields(pieces: seq<string>, a: nat, b: nat, v: DebugValue, w: DebugValue): string
    requires |pieces| == 5
  {
    pieces[0] + (Decimal(a) + (pieces[1] + (Decimal(b) + (pieces[2] + (Debug(v) + (pieces[3] + (Debug(w) + pieces[4])))))))
  }

  function ParseFourFields(pieces: seq<string>, s: string): Option<(nat, nat, DebugValue, DebugValue)>
    requires |pieces| == 5
  {
    var s1 :- StripPrefix(pieces[0], s);
    var (a, s2) :- ParseDecimal(s1);
    var s3 :- StripPrefix(pieces[1], s2);
    var (b, s4) :- ParseDecimal(s3);
    var (v, w) :- ParseTwoValues(pieces[2..], s4);
    Some((a, b, v, w))
  }

  /** The back half of `ParseFourFields`: literal, value, literal, value, literal. */
  function ParseTwoValues(pieces: seq<string>, s: string): Option<(DebugValue, DebugValue)>
    requires |pieces| == 3
  {
    var s1 :- StripPrefix(pieces[0], s);
    var (v, s2) :- ParseValue(s1);
    var s3 :- StripPrefix(pieces[1], s2);
    var (w, s4) :- ParseValue(s3);
    if s4 == pieces[2] then Some((v, w)) else None
  }

  lemma ParseTwoValuesRoundTrip(pieces: seq<string>, v: DebugValue, w: DebugValue)
    requires |pieces| == 3 && Separates(pieces[1]) && Delimits(pieces[2])
    ensures ParseTwoValues(pieces, pieces[0] + (Debug(v) + (pieces[1] + (Debug(w) + pieces[2])))) == Some((v, w))
  {
    var t2 := Debug(w) + pieces[2];
    var t1 := pieces[1] + t2;
    StripPrefixOf(pieces[0], Debug(v) + t1);
    ParseValueRoundTrip(v, t1);
    StripPrefixOf(pieces[1], t2);
    ParseValueRoundTrip(w, pieces[2]);
  }

  lemma FourFieldsRoundTrip(pieces: seq<string>, a: nat, b: nat, v: DebugValue, w: DebugValue)
    requires |pieces| == 5
    requires Separates(pieces[1]) && Separates(pieces[2]) && Separates(pieces[3]) && Delimits(pieces[4])
    ensures ParseFourFields(pieces, FourFields(pieces, a, b, v, w)) == Some((a, b, v, w))
  {
    var back := pieces[2] + (Debug(v) + (pieces[3] + (Debug(w) + pieces[4])));
    var t1 := pieces[1] + (Decimal(b) + back);
    StripPrefixOf(pieces[0], Decimal(a) + t1);
    ParseDecimalRoundTrip(a, t1);
    StripPrefixOf(pieces[1], Decimal(b) + back);
    ParseDecimalRoundTrip(b, back);
    ParseTwoValuesRoundTrip(pieces[2..], v, w);
  }

  // ---------------------------------------------------------------------------
  // `Debug` of a string or path

  /** How `{:?}` escapes one character of a string. */
  function EscapeChar(c: char): string
  {
    match c
    case '"' => "\\\""
    case '\\' => "\\\\"
    case '\'' => "\\'"
    case '\n' => "\\n"
    case '\r' => "\\r"
    case '\t' => "\\t"
    case '\0' => "\\0"
    case _ => [c]
  }

  function Escaped(s: string): string
  {
    if s == [] then [] else EscapeChar(s[0]) + Escaped(s[1..])
  }

  /**
   * `{:?}` of a path (`OsStr`'s `Debug`): quoted, with both quote characters,
   * backslashes and control escapes escaped.
   */
  function DebugStr(s: string): (r: string)
    ensures |r| >= 2 && r[0] == '"' && r[|r| - 1] == '"'
  {
    "\"" + Escaped(s) + "\""
  }

  function UnescapeChar(e: char): Option<char>
  {
    match e
    case '"' => Some('"')
    case '\'' => Some('\'')
    case '\\' => Some('\\')
    case 'n' => Some('\n')
    case 'r' => Some('\r')
    case 't' => Some('\t')
    case '0' => Some('\0')
    case _ => None
  }

  /** Reads escaped text up to the closing quote; gives the text and what follows the quote. */
  function Unescape(s: string): Option<(string, string)>
    decreases |s|
  {
    if s == [] then None
    else if s[0] == '"' then Some(([], s[1..]))
    else if s[0] == '\\' then
      if |s| < 2 then None
      else
        var c :- UnescapeChar(s[1]);
        var (t, rest) :- Unescape(s[2..]);
        Some(([c] + t, rest))
    else
      var (t, rest) :- Unescape(s[1..]);
      Some(([s[0]] + t, rest))
  }

  function ParseDebugStr(s: string): Option<(string, string)>
  {
    if s != [] && s[0] == '"' then Unescape(s[1..]) else None
  }

  /** A character prints as itself, or as a backslash and a letter that `UnescapeChar` maps back. */
  lemma EscapeCharShape(c: char)
    ensures (EscapeChar(c) == [c] && c != '"' && c != '\\')
         || (|EscapeChar(c)| == 2 && EscapeChar(c)[0] == '\\' && UnescapeChar(EscapeChar(c)[1]) == Some(c))
  {
  }

  lemma UnescapePlain(c: char, tail: string, t: string, rest: string)
    requires c != '"' && c != '\\' && Unescape(tail) == Some((t, rest))
    ensures Unescape([c] + tail) == Some(([c] + t, rest))
  {
    assert ([c] + tail)[1..] == tail;
  }

  lemma UnescapeEscaped(e: string, c: char, tail: string, t: string, rest: string)
    requires |e| == 2 && e[0] == '\\' && UnescapeChar(e[1]) == Some(c)
    requires Unescape(tail) == Some((t, rest))
    ensures Unescape(e + tail) == Some(([c] + t, rest))
  {
    assert (e + tail)[0] == '\\' && (e + tail)[1] == e[1];
    assert (e + tail)[2..] == tail;
  }

  lemma {:induction false} UnescapeRoundTrip(s: string, rest: string)
    ensures Unescape(Escaped(s) + "\"" + rest) == Some((s, rest))
    decreases |s|
  {
    if s == [] {
      assert Escaped(s) + "\"" + rest == "\"" + rest;
    } else {
      var tail := Escaped(s[1..]) + "\"" + rest;
      var e := EscapeChar(s[0]);
      assert Escaped(s) + "\"" + rest == e + tail;
      UnescapeRoundTrip(s[1..], rest);
      EscapeCharShape(s[0]);
      if e == [s[0]] && s[0] != '"' && s[0] != '\\' {
        UnescapePlain(s[0], tail, s[1..], rest);
      } else {
        UnescapeEscaped(e, s[0], tail, s[1..], rest);
      }
      assert [s[0]] + s[1..] == s;
    }
  }

  /** Reading back a printed path gives the path and leaves what followed it. */
  lemma ParseDebugStrRoundTrip(s: string, rest: string)
    ensures ParseDebugStr(DebugStr(s) + rest) == Some((s, rest))
  {
    UnescapeRoundTrip(s, rest);
    assert (DebugStr(s) + rest)[1..] == Escaped(s) + "\"" + rest;
  }
}

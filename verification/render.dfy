/**
  Rendering of records: `generate_expression`, `generate_xml`, the
  newline-joined list of places, and the configuration document wrapped
  around it.

  Each rendering function has a decoder beside it, and the lemmas say that
  decoding the rendered text gives back exactly what was rendered.  That is
  the sense in which the text names the method, the index and the owner
  unambiguously.  It holds when method and owner names contain no double
  quote and no newline, which Python identifiers and dotted module paths
  never do.
 */
module Render {
  import opened Classifier

  datatype Option<T> = None | Some(value: T)

  // ---------------------------------------------------------------------
  // Decimal numerals (the `{index}` of the f-string)
  // ---------------------------------------------------------------------

  predicate IsDigit(c: char)
  {
    '0' <= c <= '9'
  }

  predicate AllDigits(s: string)
  {
    forall c :: c in s ==> IsDigit(c)
  }

  function DigitChar(d: nat): (c: char)
    requires d < 10
    ensures IsDigit(c)
    ensures c == '0' <==> d == 0
  {
    (48 + d) as char
  }

  function DigitValue(c: char): (d: nat)
    requires IsDigit(c)
    ensures d < 10
  {
    c as int - 48
  }

  /** Python's `str(n)` for a non-negative integer: its decimal digits,
      without leading zeros. */
  function Decimal(n: nat): (s: string)
    ensures |s| > 0 && AllDigits(s)
    ensures s[0] == '0' ==> n == 0 && |s| == 1
    decreases n
  {
    if n < 10 then [DigitChar(n)] else Decimal(n / 10) + [DigitChar(n % 10)]
  }

  /** The value of a string of decimal digits. */
  function ParseDecimal(s: string): nat
    requires AllDigits(s)
    decreases |s|
  {
    if |s| == 0 then 0 else ParseDecimal(s[..|s| - 1]) * 10 + DigitValue(s[|s| - 1])
  }

  lemma {:induction false} DecimalRoundTrip(n: nat)
    ensures ParseDecimal(Decimal(n)) == n
    decreases n
  {
    if n >= 10 {
      DecimalRoundTrip(n / 10);
      var s := Decimal(n);
      assert s[..|s| - 1] == Decimal(n / 10);
    }
  }

  // ---------------------------------------------------------------------
  // Splitting at a character
  // ---------------------------------------------------------------------

  /** Split `s` around the first occurrence of `c`. */
  function SplitAt(s: string, c: char): (r: Option<(string, string)>)
    ensures r.None? <==> c !in s
    ensures r.Some? ==> s == r.value.0 + [c] + r.value.1 && c !in r.value.0
    decreases |s|
  {
    if |s| == 0 then None
    else if s[0] == c then Some(([], s[1..]))
    else
      match SplitAt(s[1..], c)
      case None => None
      case Some(p) => Some(([s[0]] + p.0, p.1))
  }

  /** The split is at the first `c`: text before it that holds no `c` comes
      back as the first half. */
  lemma {:induction false} SplitAtFirst(a: string, c: char, b: string)
    requires c !in a
    ensures SplitAt(a + [c] + b, c) == Some((a, b))
    decreases |a|
  {
    if |a| == 0 {
      assert a + [c] + b == [c] + b;
    } else {
      assert (a + [c] + b)[1..] == a[1..] + [c] + b;
      SplitAtFirst(a[1..], c, b);
      assert [a[0]] + a[1..] == a;
    }
  }

  // ---------------------------------------------------------------------
  // One place
  // ---------------------------------------------------------------------

  const PlaceOpen: string := "<place><![CDATA["
  const PlaceClose: string := "]]></place>"
  // Written in pieces so that its characters (none a newline) are visible
  // to the verifier; the pieces spell `+ pyLiteralExpression().and(pyMethodArgument("`.
  const CallOpen: string := "+ pyLiteral" + "Expression()" + ".and(" + "pyMethod" + "Argument(\""
  const CallClose: string := "\"))"

  /** The names carry nothing that would end the quoted argument or the line. */
  predicate Printable(x: Record)
  {
    '"' !in x.methodName && '"' !in x.owner && '\n' !in x.methodName && '\n' !in x.owner
  }

  /** The three fields as they appear between the template's fixed ends. */
  function Fields(x: Record): (f: string)
    ensures Printable(x) ==> '\n' !in f
  {
    x.methodName + "\", " + Decimal(x.index) + ", \"" + x.owner
  }

  /** `generate_expression`: a pattern matching argument `index` of
      `methodName` on `owner`. */
  function Expression(x: Record): (e: string)
    ensures Printable(x) ==> '\n' !in e
  {
    CallOpen + Fields(x) + CallClose
  }

  /** `generate_xml`: the expression as the character data of a place element. */
  function Place(x: Record): (p: string)
    ensures Printable(x) ==> '\n' !in p
  {
    PlaceOpen + Expression(x) + PlaceClose
  }

  /** `s` with `prefix` and `suffix` removed, when it has both. */
  function Strip(s: string, prefix: string, suffix: string): (r: Option<string>)
    ensures r.Some? <==> |prefix| + |suffix| <= |s| && s[..|prefix|] == prefix && s[|s| - |suffix|..] == suffix
    ensures r.Some? ==> s == prefix + r.value + suffix
  {
    if |prefix| + |suffix| <= |s| && s[..|prefix|] == prefix && s[|s| - |suffix|..] == suffix then
      var mid := s[|prefix|..|s| - |suffix|];
      assert s == prefix + mid + suffix;
      Some(mid)
    else None
  }

  lemma StripConcat(prefix: string, mid: string, suffix: string)
    ensures Strip(prefix + mid + suffix, prefix, suffix) == Some(mid)
  {
    var s := prefix + mid + suffix;
    assert s[..|prefix|] == prefix;
    assert s[|s| - |suffix|..] == suffix;
    assert s[|prefix|..|s| - |suffix|] == mid;
  }

  /** Read the three fields back: the method name up to the first quote,
      the digits up to the next comma, and the owner name after the quote. */
  function ParseFields(s: string): Option<Record>
  {
    match SplitAt(s, '"')
    case None => None
    case Some(p1) =>
      var rest1 := p1.1;
      if !(2 <= |rest1| && rest1[..2] == ", ") then None
      else
        match SplitAt(rest1[2..], ',')
        case None => None
        case Some(p2) =>
          var digits := p2.0;
          var rest2 := p2.1;
          if |digits| == 0 || !AllDigits(digits) || !(2 <= |rest2| && rest2[..2] == " \"") then None
          else Some(Record(p1.0, ParseDecimal(digits), rest2[2..]))
  }

  /** Read an expression back by removing the fixed ends of the pattern. */
  function ParseExpression(e: string): Option<Record>
  {
    match Strip(e, CallOpen, CallClose)
    case None => None
    case Some(f) => ParseFields(f)
  }

  /** Read a place back by removing the element around the expression. */
  function ParsePlace(s: string): Option<Record>
  {
    match Strip(s, PlaceOpen, PlaceClose)
    case None => None
    case Some(e) => ParseExpression(e)
  }

  lemma FieldsRoundTrip(x: Record)
    requires Printable(x)
    ensures ParseFields(Fields(x)) == Some(x)
  {
    var digits := Decimal(x.index);
    var rest2 := " \"" + x.owner;
    var rest1 := ", " + (digits + [','] + rest2);
    assert Fields(x) == x.methodName + ['"'] + rest1;
    SplitAtFirst(x.methodName, '"', rest1);
    assert rest1[2..] == digits + [','] + rest2;
    SplitAtFirst(digits, ',', rest2);
    assert rest2[2..] == x.owner;
    DecimalRoundTrip(x.index);
  }

  /** The pattern names the method, index and owner it was made from. */
  lemma ExpressionRoundTrip(x: Record)
    requires Printable(x)
    ensures ParseExpression(Expression(x)) == Some(x)
  {
    StripConcat(CallOpen, Fields(x), CallClose);
    FieldsRoundTrip(x);
  }

  /** Reading a rendered place gives back the record it was rendered from. */
  lemma PlaceRoundTrip(x: Record)
    requires Printable(x)
    ensures ParsePlace(Place(x)) == Some(x)
  {
    StripConcat(PlaceOpen, Expression(x), PlaceClose);
    ExpressionRoundTrip(x);
  }

  /** Distinct printable records render to distinct places. */
  lemma PlaceInjective(x: Record, y: Record)
    requires Printable(x) && Printable(y)
    requires Place(x) == Place(y)
    ensures x == y
  {
    PlaceRoundTrip(x);
    PlaceRoundTrip(y);
  }

  // ---------------------------------------------------------------------
  // The list of places
  // ---------------------------------------------------------------------

  function Places(xs: seq<Record>): (ps: seq<string>)
    ensures |ps| == |xs|
    ensures forall i :: 0 <= i < |xs| ==> ps[i] == Place(xs[i])
  {
    seq(|xs|, i requires 0 <= i < |xs| => Place(xs[i]))
  }

  /** `"\n".join(lines)`. */
  function JoinLines(lines: seq<string>): string
  {
    if |lines| == 0 then ""
    else if |lines| == 1 then lines[0]
    else lines[0] + "\n" + JoinLines(lines[1..])
  }

  /** `text.split("\n")`. */
  function SplitLines(text: string): (r: seq<string>)
    ensures |r| > 0
    decreases |text|
  {
    match SplitAt(text, '\n')
    case None => [text]
    case Some(p) => [p.0] + SplitLines(p.1)
  }

  /** Splitting the joined lines gives the lines back, when none holds a
      newline and there is at least one. */
  lemma {:induction false} SplitJoinLines(lines: seq<string>)
    requires |lines| > 0
    requires forall i :: 0 <= i < |lines| ==> '\n' !in lines[i]
    ensures SplitLines(JoinLines(lines)) == lines
  {
    if |lines| == 1 {
      assert SplitAt(lines[0], '\n').None?;
    } else {
      SplitAtFirst(lines[0], '\n', JoinLines(lines[1..]));
      assert lines[0] + "\n" + JoinLines(lines[1..]) == lines[0] + ['\n'] + JoinLines(lines[1..]);
      SplitJoinLines(lines[1..]);
      assert lines == [lines[0]] + lines[1..];
    }
  }

  /** Read each line back as a place. */
  function ParsePlaces(lines: seq<string>): Option<seq<Record>>
  {
    if |lines| == 0 then Some([])
    else
      match ParsePlace(lines[0])
      case None => None
      case Some(x) =>
        match ParsePlaces(lines[1..])
        case None => None
        case Some(rest) => Some([x] + rest)
  }

  lemma ParsePlacesCons(lines: seq<string>, x: Record, rest: seq<Record>)
    requires |lines| > 0
    ensures ParsePlace(lines[0]) == Some(x) && ParsePlaces(lines[1..]) == Some(rest) ==>
      ParsePlaces(lines) == Some([x] + rest)
  {
  }

  /** Every place line parses back to the record it was rendered from. */
  lemma {:induction false} ParsePlacesRoundTrip(xs: seq<Record>)
    requires forall i :: 0 <= i < |xs| ==> Printable(xs[i])
    ensures ParsePlaces(Places(xs)) == Some(xs)
  {
    if |xs| != 0 {
      var ps := Places(xs);
      PlaceRoundTrip(xs[0]);
      assert ps[1..] == Places(xs[1..]);
      ParsePlacesRoundTrip(xs[1..]);
      ParsePlacesCons(ps, xs[0], xs[1..]);
      assert xs == [xs[0]] + xs[1..];
    }
  }

  // ---------------------------------------------------------------------
  // The document
  // ---------------------------------------------------------------------

  function Language(kind: Kind): string
  {
    match kind
    case Css => "CSS"
    case Js => "javascript"
  }

  function DisplayName(kind: Kind): string
  {
    match kind
    case Css => "playwright - CSS"
    case Js => "playwright - JS"
  }

  /** The envelope before the places: the language, the `python` injector,
      the display name and the disabled single-file flag. */
  function Header(kind: Kind): string
  {
    "<LanguageInjectionConfiguration>\n  <injection language=\"" + Language(kind)
      + "\" injector-id=\"python\">\n    <display-name>" + DisplayName(kind)
      + "</display-name>\n    <single-file value=\"false\" />\n    "
  }

  const Footer: string := "\n    </injection>\n</LanguageInjectionConfiguration>\n"

  /** A text framed by `h` and `f` starts with `h`, ends with `f`, and holds
      `m` in between. */
  lemma Framed(h: string, m: string, f: string)
    ensures |h| + |f| <= |h + m + f|
    ensures (h + m + f)[..|h|] == h
    ensures (h + m + f)[|h + m + f| - |f|..] == f
    ensures (h + m + f)[|h|..|h + m + f| - |f|] == m
  {
  }

  /** The configuration document for one kind: the header, the places joined
      by newlines, the footer. */
  function Document(kind: Kind, xs: seq<Record>): (d: string)
    ensures |Header(kind)| + |Footer| <= |d|
    ensures d[..|Header(kind)|] == Header(kind)
    ensures d[|d| - |Footer|..] == Footer
  {
    var h := Header(kind);
    var m := JoinLines(Places(xs));
    Framed(h, m, Footer);
    h + m + Footer
  }

  /** Read the records back out of a document of the given kind. */
  function DecodeDocument(kind: Kind, d: string): Option<seq<Record>>
  {
    var h := Header(kind);
    if |d| < |h| + |Footer| || d[..|h|] != h || d[|d| - |Footer|..] != Footer then None
    else
      var body := d[|h|..|d| - |Footer|];
      if body == "" then Some([]) else ParsePlaces(SplitLines(body))
  }

  /** Joining lines whose first one is non-empty gives a non-empty text. */
  lemma JoinLinesNonEmpty(lines: seq<string>)
    requires |lines| > 0 && |lines[0]| > 0
    ensures |JoinLines(lines)| > 0
  {
    if |lines| > 1 {
      assert JoinLines(lines) == lines[0] + "\n" + JoinLines(lines[1..]);
    }
  }

  /** A document lists exactly the records it was rendered from, in order. */
  lemma DocumentRoundTrip(kind: Kind, xs: seq<Record>)
    requires forall i :: 0 <= i < |xs| ==> Printable(xs[i])
    ensures DecodeDocument(kind, Document(kind, xs)) == Some(xs)
  {
    var d := Document(kind, xs);
    var h := Header(kind);
    var ps := Places(xs);
    Framed(h, JoinLines(ps), Footer);
    if |xs| != 0 {
      JoinLinesNonEmpty(ps);
      SplitJoinLines(ps);
      ParsePlacesRoundTrip(xs);
    }
  }
}

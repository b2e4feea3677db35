/**
 * The string-shape rules of the schemas, written by hand instead of with a
 * regular-expression engine. Each `Pattern` pairs the shape that decides
 * acceptance with the exact regex text the schema declares; that text is
 * what a pattern failure reports in its ctx ("pattern") and what the error
 * normalisers key their messages on.
 *
 * Semantics follow the validator's matcher: a match is searched from the
 * start (`^`), `$` is the end of the text, `[0-9]` is '0'..'9', `\d` is any
 * Unicode decimal digit (general category Nd), and a pattern without `$`
 * (`^[^a-z]+`) only constrains a prefix.
 *
 * Also here: the text of a closed enumeration ("'a', 'b' or 'c'") that a
 * literal failure reports in its ctx ("expected").
 */
module Patterns {

  /** `[0-9]` */
  predicate IsDigit(c: char) { '0' <= c <= '9' }

  /** The first code point of every run of ten decimal digits (general
      category Nd) outside ASCII, as of Unicode 15.0; each run is the digits
      zero to nine of one script. */
  const NdZeros: set<int> := {
    0x0660, 0x06F0, 0x07C0, 0x0966, 0x09E6, 0x0A66, 0x0AE6, 0x0B66, 0x0BE6, 0x0C66,
    0x0CE6, 0x0D66, 0x0DE6, 0x0E50, 0x0ED0, 0x0F20, 0x1040, 0x1090, 0x17E0, 0x1810,
    0x1946, 0x19D0, 0x1A80, 0x1A90, 0x1B50, 0x1BB0, 0x1C40, 0x1C50, 0xA620, 0xA8D0,
    0xA900, 0xA9D0, 0xA9F0, 0xAA50, 0xABF0, 0xFF10,
    0x104A0, 0x10D30, 0x11066, 0x110F0, 0x11136, 0x111D0, 0x112F0, 0x11450, 0x114D0, 0x11650,
    0x116C0, 0x11730, 0x118E0, 0x11950, 0x11C50, 0x11D50, 0x11DA0, 0x11F50, 0x16A60, 0x16AC0,
    0x16B50, 0x1D7CE, 0x1D7D8, 0x1D7E2, 0x1D7EC, 0x1D7F6, 0x1E140, 0x1E2F0, 0x1E4F0, 0x1E950,
    0x1FBF0}

  /** `\d`: an ASCII digit or a decimal digit of another script. */
  predicate IsDecimal(c: char)
  {
    || IsDigit(c)
    || (c as int >= 0x0660 && exists z :: z in NdZeros && z <= c as int < z + 10)
  }

  /** The two digit classes the schemas use. */
  datatype DigitClass = Ascii | Decimal   // [0-9]   \d

  predicate InClass(d: DigitClass, c: char)
  {
    match d
    case Ascii => IsDigit(c)
    case Decimal => IsDecimal(c)
  }

  predicate AllDigits(s: string) { forall i :: 0 <= i < |s| ==> IsDigit(s[i]) }

  predicate AllDecimal(s: string) { forall i :: 0 <= i < |s| ==> IsDecimal(s[i]) }

  predicate AllIn(d: DigitClass, s: string) { forall i :: 0 <= i < |s| ==> InClass(d, s[i]) }

  predicate IsLowerAscii(c: char) { 'a' <= c <= 'z' }

  datatype Shape =
    | DigitsAtLeast(digits: DigitClass, min: nat)                         // ^\d{m,}$   ^\d+$   ^[0-9]+$
    | DigitsExactly(count: nat)                                           // ^\d{n}$
    | DecimalPrice                                                        // ^\d{1,}\.\d{2}$
    | PrefixThenDigits(prefixes: seq<string>, digits: DigitClass, count: nat)  // ^P1\d{n}$|^P2[0-9]{n}$|...
    | NoLowerFirst                                                        // ^[^a-z]+

  datatype Pattern = Pattern(shape: Shape, text: string)

  /** `s` is the prefix followed by exactly `n` digits of class `d`. */
  predicate PrefixedDigits(s: string, prefix: string, d: DigitClass, n: nat)
  {
    |s| == |prefix| + n && s[..|prefix|] == prefix && AllIn(d, s[|prefix|..])
  }

  predicate ShapeMatches(shape: Shape, s: string)
  {
    match shape
    case DigitsAtLeast(d, m) => |s| >= m && AllIn(d, s)
    case DigitsExactly(n) => |s| == n && AllDecimal(s)
    case DecimalPrice =>
      |s| >= 4 && AllDecimal(s[..|s| - 3]) && s[|s| - 3] == '.' && AllDecimal(s[|s| - 2..])
    case PrefixThenDigits(ps, d, n) => exists i :: 0 <= i < |ps| && PrefixedDigits(s, ps[i], d, n)
    case NoLowerFirst => |s| >= 1 && !IsLowerAscii(s[0])
  }

  predicate Matches(p: Pattern, s: string) { ShapeMatches(p.shape, s) }

  // ---------------------------------------------------------------------
  // The patterns the schemas declare, with their exact regex text

  const DigitsMin3 := Pattern(DigitsAtLeast(Decimal, 3), "^\\d{3,}$")
  const DigitsMin1 := Pattern(DigitsAtLeast(Decimal, 1), "^\\d{1,}$")
  const ZeroToNineRun := Pattern(DigitsAtLeast(Ascii, 1), "^[0-9]+$")
  const DigitRun := Pattern(DigitsAtLeast(Decimal, 1), "^\\d+$")
  const SixDigits := Pattern(DigitsExactly(6), "^\\d{6}$")
  const ThreeDigits := Pattern(DigitsExactly(3), "^\\d{3}$")
  const FourteenDigits := Pattern(DigitsExactly(14), "^\\d{14}$")
  const ItemPrice := Pattern(DecimalPrice, "^\\d{1,}\\.\\d{2}$")
  const BarcodeRL := Pattern(PrefixThenDigits(["33433"], Ascii, 9), "^33433[0-9]{9}$")
  const BarcodeBL := Pattern(PrefixThenDigits(["33333"], Ascii, 9), "^33333[0-9]{9}$")
  const BarcodeBPL := Pattern(PrefixThenDigits(["34444"], Ascii, 9), "^34444[0-9]{9}$")
  const BarcodeAny := Pattern(PrefixThenDigits(["33433", "33333", "34444"], Ascii, 9),
                              "^33433[0-9]{9}$|^33333[0-9]{9}$|^34444[0-9]{9}$")
  const ReCAPCallNo := Pattern(PrefixThenDigits(["ReCAP 23-", "ReCAP 24-"], Decimal, 6),
                               "^ReCAP 23-\\d{6}$|^ReCAP 24-\\d{6}$")
  const ReCAP23Five := Pattern(PrefixThenDigits(["ReCAP 23-"], Decimal, 5), "^ReCAP 23-\\d{5}$")
  const CapsMessage := Pattern(NoLowerFirst, "^[^a-z]+")

  // ---------------------------------------------------------------------
  // Closed enumerations

  function Quote(s: string): string { "'" + s + "'" }

  function QuoteAll(opts: seq<string>): (r: string)
    ensures opts == [] ==> r == ""
  {
    if opts == [] then ""
    else if |opts| == 1 then Quote(opts[0])
    else Quote(opts[0]) + ", " + QuoteAll(opts[1..])
  }

  /** How a literal failure renders the allowed values: "'a'" for one value,
      "'a', 'b' or 'c'" for several. */
  function ExpectedText(opts: seq<string>): string
  {
    if |opts| <= 1 then QuoteAll(opts)
    else QuoteAll(opts[..|opts| - 1]) + " or " + Quote(opts[|opts| - 1])
  }

  /** No option contains a quote character, as with every enumeration the
      schemas declare. */
  predicate QuoteFree(opts: seq<string>)
  {
    forall i :: 0 <= i < |opts| ==> '\'' !in opts[i]
  }

  /** The position of the first quote in `s`, or |s| when there is none. */
  function QuoteIndex(s: string): (j: nat)
    ensures j <= |s|
    ensures j < |s| ==> s[j] == '\''
    ensures forall i :: 0 <= i < j ==> s[i] != '\''
  {
    if s == [] then 0 else if s[0] == '\'' then 0 else 1 + QuoteIndex(s[1..])
  }

  /** An enumeration text read back: the text between the first and the
      second quote, between the third and the fourth, and so on; what lies
      between two quoted options is skipped, and an unterminated quote ends
      the reading. */
  function Tokens(t: string): seq<string>
    decreases |t|
  {
    if t == [] then []
    else if t[0] != '\'' then Tokens(t[1..])
    else
      var j := QuoteIndex(t[1..]);
      if j == |t| - 1 then [] else [t[1..1 + j]] + Tokens(t[j + 2..])
  }

  // ---------------------------------------------------------------------
  // Facts about the patterns

  /** A string carrying one prefix cannot carry another prefix of the same
      length that differs from it. */
  lemma {:induction false} PrefixesExclude(s: string, p: string, q: string, d: DigitClass, n: nat)
    requires |p| == |q| && p != q
    ensures !(PrefixedDigits(s, p, d, n) && PrefixedDigits(s, q, d, n))
  {
  }

  /** Each library's barcode rule rejects what the other two accept, and
      the combined rule accepts exactly what one of the three accepts. */
  lemma {:induction false} BarcodeRulesPartition(s: string)
    ensures Matches(BarcodeRL, s) ==> !Matches(BarcodeBL, s) && !Matches(BarcodeBPL, s)
    ensures Matches(BarcodeBL, s) ==> !Matches(BarcodeBPL, s)
    ensures Matches(BarcodeAny, s) <==>
              Matches(BarcodeRL, s) || Matches(BarcodeBL, s) || Matches(BarcodeBPL, s)
  {
    assert BarcodeRL.shape.prefixes[0] == "33433";
    assert BarcodeBL.shape.prefixes[0] == "33333";
    assert BarcodeBPL.shape.prefixes[0] == "34444";
    assert BarcodeAny.shape.prefixes == ["33433", "33333", "34444"];
    PrefixesExclude(s, "33433", "33333", Ascii, 9);
    PrefixesExclude(s, "33433", "34444", Ascii, 9);
    PrefixesExclude(s, "33333", "34444", Ascii, 9);
    var ps := BarcodeAny.shape.prefixes;
    assert Matches(BarcodeRL, s) <==> PrefixedDigits(s, ps[0], Ascii, 9);
    assert Matches(BarcodeBL, s) <==> PrefixedDigits(s, ps[1], Ascii, 9);
    assert Matches(BarcodeBPL, s) <==> PrefixedDigits(s, ps[2], Ascii, 9);
  }

  /** Any prefix followed by the right number of digits is accepted. */
  lemma {:induction false} PrefixedAccepted(prefix: string, d: DigitClass, digits: string, n: nat)
    requires |digits| == n && AllIn(d, digits)
    ensures PrefixedDigits(prefix + digits, prefix, d, n)
  {
    assert (prefix + digits)[..|prefix|] == prefix;
    assert (prefix + digits)[|prefix|..] == digits;
  }

  /** A fourteen-digit barcode with the research-library prefix: accepted by
      the research-library rule, rejected by the other two. */
  lemma {:induction false} ResearchBarcodeOnlyUnderRL()
    ensures Matches(BarcodeRL, "33433123456789")
    ensures !Matches(BarcodeBL, "33433123456789")
    ensures !Matches(BarcodeBPL, "33433123456789")
  {
    assert "33433123456789" == "33433" + "123456789";
    PrefixedAccepted("33433", Ascii, "123456789", 9);
    assert BarcodeRL.shape.prefixes[0] == "33433";
    BarcodeRulesPartition("33433123456789");
  }

  /** Item prices need a point and exactly two decimals; digit-only prices
      must not have one. */
  lemma {:induction false} PriceExamples()
    ensures Matches(ItemPrice, "1.23") && Matches(ItemPrice, "12.34")
    ensures !Matches(ItemPrice, "123") && !Matches(ItemPrice, "1.2")
    ensures !Matches(DigitsMin3, "2.00") && !Matches(DigitsMin1, "1.11")
    ensures Matches(DigitsMin3, "1234") && !Matches(DigitsMin3, "12")
  {
    assert "1.23"[..1] == "1" && "1.23"[2..] == "23";
    assert "12.34"[..2] == "12" && "12.34"[3..] == "34";
    assert "2.00"[1] == '.';
    assert "1.11"[1] == '.';
  }

  /** The invoice date is six digits (YYMMDD); an ISO date is rejected. */
  lemma {:induction false} DateExamples()
    ensures Matches(SixDigits, "240101")
    ensures !Matches(SixDigits, "2024-01-01")
    ensures !Matches(SixDigits, "2401011")
  {
  }

  /** Below the first non-ASCII run, `\d` and `[0-9]` agree. */
  lemma {:induction false} DecimalBelowRunsIsAscii(c: char)
    requires c as int < 0x0660
    ensures IsDecimal(c) <==> IsDigit(c)
    ensures InClass(Decimal, c) <==> InClass(Ascii, c)
  {
  }

  /** Arabic-Indic and fullwidth digits are decimal digits: `^\d{3,}$`
      accepts them, while `^[0-9]+$` and the barcode rules (`[0-9]`) do not. */
  lemma {:induction false} OtherScriptDigits()
    ensures Matches(DigitsMin3, "\U{0661}\U{0662}\U{0663}")
    ensures Matches(SixDigits, "\U{FF12}\U{FF14}\U{FF10}\U{FF11}\U{FF10}\U{FF11}")
    ensures !Matches(ZeroToNineRun, "\U{0661}\U{0662}\U{0663}")
    ensures !Matches(BarcodeAny, "33433\U{0661}23456789")
  {
    var s := "\U{0661}\U{0662}\U{0663}";
    assert 0x0660 in NdZeros;
    assert forall i :: 0 <= i < |s| ==> 0x0660 <= s[i] as int < 0x0660 + 10;
    var t := "\U{FF12}\U{FF14}\U{FF10}\U{FF11}\U{FF10}\U{FF11}";
    assert 0xFF10 in NdZeros;
    assert forall i :: 0 <= i < |t| ==> 0xFF10 <= t[i] as int < 0xFF10 + 10;
    var b := "33433\U{0661}23456789";
    assert !IsDigit(b[5]);
    assert BarcodeAny.shape.prefixes == ["33433", "33333", "34444"];
    assert b[5..][0] == b[5];
  }

  /** `^[^a-z]+` has no end anchor: only the first character is checked. */
  lemma {:induction false} CapsRuleChecksFirstCharOnly(c: char, rest: string)
    ensures Matches(CapsMessage, [c] + rest) <==> !IsLowerAscii(c)
    ensures !Matches(CapsMessage, "")
  {
  }

  // ---------------------------------------------------------------------
  // Reading an enumeration text back

  /** Text free of quotes is skipped by the reading. */
  lemma {:induction false} SkipUnquoted(sep: string, rest: string)
    requires '\'' !in sep
    ensures Tokens(sep + rest) == Tokens(rest)
  {
    if sep != [] {
      assert (sep + rest)[0] == sep[0];
      assert (sep + rest)[1..] == sep[1..] + rest;
      SkipUnquoted(sep[1..], rest);
    } else {
      assert sep + rest == rest;
    }
  }

  /** The first quote after a quote-free option is the one closing it. */
  lemma {:induction false} ClosingQuote(o: string, rest: string)
    requires '\'' !in o
    ensures QuoteIndex(o + "'" + rest) == |o|
  {
    if o != [] {
      assert (o + "'" + rest)[0] == o[0];
      assert (o + "'" + rest)[1..] == o[1..] + "'" + rest;
      ClosingQuote(o[1..], rest);
    } else {
      assert o + "'" + rest == "'" + rest;
    }
  }

  /** A quoted option is read back as itself. */
  lemma {:induction false} QuotedToken(o: string, rest: string)
    requires '\'' !in o
    ensures Tokens(Quote(o) + rest) == [o] + Tokens(rest)
  {
    var t := Quote(o) + rest;
    assert t[0] == '\'';
    assert t[1..] == o + "'" + rest;
    ClosingQuote(o, rest);
    assert t[1..1 + |o|] == o;
    assert t[|o| + 2..] == rest;
  }

  /** The options after the first are quote-free too. */
  lemma {:induction false} QuoteFreeTail(xs: seq<string>)
    requires xs != [] && QuoteFree(xs)
    ensures QuoteFree(xs[1..])
  {
    forall i | 0 <= i < |xs| - 1 ensures '\'' !in xs[1..][i] {
      assert xs[1..][i] == xs[i + 1];
    }
  }

  /** Regrouping the text of two or more options around the first one. */
  lemma {:induction false} QuoteAllSplit(xs: seq<string>, sep: string, rest: string)
    requires |xs| >= 2
    ensures QuoteAll(xs) + sep + rest == Quote(xs[0]) + (", " + (QuoteAll(xs[1..]) + sep + rest))
  {
  }

  /** A quoted option followed by quote-free text and more. */
  lemma {:induction false} QuotedThenSkip(x: string, sep: string, rest: string)
    requires '\'' !in x && '\'' !in sep
    ensures Tokens(Quote(x) + (sep + rest)) == [x] + Tokens(rest)
  {
    QuotedToken(x, sep + rest);
    SkipUnquoted(sep, rest);
  }

  /** The comma-joined options, followed by quote-free text, read back as
      the options. */
  lemma {:induction false} QuoteAllTokens(xs: seq<string>, sep: string, rest: string)
    requires xs != [] && QuoteFree(xs) && '\'' !in sep
    ensures Tokens(QuoteAll(xs) + sep + rest) == xs + Tokens(rest)
  {
    var x := xs[0];
    assert '\'' !in x;
    if |xs| == 1 {
      assert QuoteAll(xs) + sep + rest == Quote(x) + (sep + rest);
      QuotedThenSkip(x, sep, rest);
      assert xs == [x];
    } else {
      var tail := QuoteAll(xs[1..]) + sep + rest;
      QuoteAllSplit(xs, sep, rest);
      QuotedThenSkip(x, ", ", tail);
      QuoteFreeTail(xs);
      QuoteAllTokens(xs[1..], sep, rest);
      assert xs == [x] + xs[1..];
    }
  }

  /** The text of an enumeration reads back as its options, in order, when
      no option contains a quote. */
  lemma {:induction false} ExpectedTextTokens(opts: seq<string>)
    requires QuoteFree(opts)
    ensures Tokens(ExpectedText(opts)) == opts
  {
    if |opts| == 1 {
      assert '\'' !in opts[0];
      assert ExpectedText(opts) == Quote(opts[0]) + "";
      QuotedToken(opts[0], "");
    } else if |opts| >= 2 {
      var init := opts[..|opts| - 1];
      var last := opts[|opts| - 1];
      assert '\'' !in last;
      assert QuoteFree(init) by {
        forall i | 0 <= i < |init| ensures '\'' !in init[i] {
          assert init[i] == opts[i];
        }
      }
      QuoteAllTokens(init, " or ", Quote(last));
      QuotedToken(last, "");
      assert Quote(last) + "" == Quote(last);
      assert opts == init + [last];
    }
  }

  /** So two enumerations of quote-free options render the same text only
      when they list the same options in the same order. */
  lemma {:induction false} ExpectedTextInjective(a: seq<string>, b: seq<string>)
    requires QuoteFree(a) && QuoteFree(b)
    ensures ExpectedText(a) == ExpectedText(b) <==> a == b
  {
    ExpectedTextTokens(a);
    ExpectedTextTokens(b);
  }

  /** A single option is quoted alone. */
  lemma {:induction false} ExpectedTextSingle()
    ensures ExpectedText(["8528"]) == "'8528'"
  {
  }

  /** Two options are joined by " or ". */
  lemma {:induction false} ExpectedTextPair()
    ensures ExpectedText(["EVP", "AUXAM"]) == "'EVP' or 'AUXAM'"
  {
    assert ["EVP", "AUXAM"][..1] == ["EVP"];
  }

  /** Three options: the first two joined by ", ", the last by " or ". */
  lemma {:induction false} ExpectedTextTriple()
    ensures ExpectedText(["EVP", "AUXAM", "LEILA"]) == "'EVP', 'AUXAM' or 'LEILA'"
  {
    assert ["EVP", "AUXAM", "LEILA"][..2] == ["EVP", "AUXAM"];
    assert ["EVP", "AUXAM"][..1] == ["EVP"];
  }

  /** The two- and three-vendor enumerations render differently, so a
      table keyed on one never matches the other. */
  lemma {:induction false} VendorTextsDiffer()
    ensures ExpectedText(["EVP", "AUXAM", "LEILA"]) != ExpectedText(["EVP", "AUXAM"])
  {
    var three := ["EVP", "AUXAM", "LEILA"];
    var two := ["EVP", "AUXAM"];
    assert QuoteFree(three) by {
      assert three[0] == "EVP" && three[1] == "AUXAM" && three[2] == "LEILA";
    }
    assert QuoteFree(two) by {
      assert two[0] == "EVP" && two[1] == "AUXAM";
    }
    assert three != two by { assert |three| != |two|; }
    ExpectedTextInjective(three, two);
  }
}

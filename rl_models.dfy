/**
 * The first research-library schemas (`rl_sr_validation/models.py`): four
 * independent models for the order (MARC 960), the item (949), the invoice
 * (980) and the bibliographic data (852, 901, 910, 050). Each ignores
 * undeclared keys and reports its declared fields in order. The year in the
 * call-number rule is fixed at 23 and the invoice amounts are exactly three
 * digits.
 */
module RlModels {
  import opened Values
  import opened Patterns
  import opened Fields

  /** Order */
  const OrderRules: seq<FieldRule> := [
    Req("price", Shaped(DigitsMin3)),
    Req("location", Free),
    Req("fund", Free)
  ]

  /** Item */
  const ItemRules: seq<FieldRule> := [
    Req("call_tag", OneOf(["8528"])),
    Req("call_no", Shaped(ReCAP23Five)),
    Req("barcode", Shaped(FourteenDigits)),
    Req("price", Shaped(ItemPrice)),
    Opt("volume", Free),
    Opt("item_message", Free),
    Opt("message", Free),
    Req("initials", OneOf(["EV", "AUXAM"])),
    Req("agency", OneOf(["43"]))
  ]

  /** Invoice */
  const InvoiceRules: seq<FieldRule> := [
    Req("date", Free),
    Req("price", Shaped(ThreeDigits)),
    Req("shipping", Shaped(ThreeDigits)),
    Req("tax", Shaped(ThreeDigits)),
    Req("net_price", Shaped(ThreeDigits)),
    Req("invoice_number", Free),
    Req("copies", Shaped(DigitRun))
  ]

  /** BibData */
  const BibDataRules: seq<FieldRule> := [
    Req("call_no", Shaped(ReCAP23Five)),
    Req("vendor", OneOf(["AUXAM", "EV"])),
    Req("rl_identifier", OneOf(["RL"])),
    Req("lcc", Free)
  ]

  /** What one of the four models reports for a mapping of keyword
      arguments; undeclared keys are ignored. */
  function Failures(rules: seq<FieldRule>, d: seq<(string, Value)>): seq<RawFailure>
  {
    Validate(rules, false, d, [])
  }

  // ---------------------------------------------------------------------
  // Acceptance

  /** A model accepts exactly when every declared field passes; no key is
      ever reported as an extra input. */
  lemma {:induction false} AcceptedIff(rules: seq<FieldRule>, d: seq<(string, Value)>)
    ensures Failures(rules, d) == [] <==> forall i :: 0 <= i < |rules| ==> FieldOk(rules[i], d)
    ensures forall f :: f in Failures(rules, d) ==> f.kind != ExtraForbidden
  {
    assert Failures(rules, d) == CheckFields(rules, d, []);
    CheckFieldsEmpty(rules, d, []);
    CheckFieldsNoExtra(rules, d, []);
  }

  /** With unique field names, a model reports nothing at the path of its
      field `i` exactly when that field passes. */
  lemma {:induction false} RuleAt(rules: seq<FieldRule>, d: seq<(string, Value)>, i: nat)
    requires i < |rules| && NameUniqueAt(rules, i)
    ensures QuietAt(Failures(rules, d), [Name(rules[i].name)]) <==> FieldOk(rules[i], d)
  {
    assert Failures(rules, d) == CheckFields(rules, d, []);
    assert [] + [Name(rules[i].name)] == [Name(rules[i].name)];
    FieldSilentIff(rules, d, [], i);
  }

  /** The field named `name` holds a string `p` matches. */
  predicate Fits(d: seq<(string, Value)>, name: string, p: Pattern)
  {
    HasKey(d, name) && Get(d, name).Str? && Matches(p, Get(d, name).s)
  }

  /** The field named `name` holds one of `options`. */
  predicate Among(d: seq<(string, Value)>, name: string, options: seq<string>)
  {
    HasKey(d, name) && Get(d, name).Str? && Get(d, name).s in options
  }

  /** The field named `name` holds a string. */
  predicate IsString(d: seq<(string, Value)>, name: string)
  {
    HasKey(d, name) && Get(d, name).Str?
  }

  // ---------------------------------------------------------------------
  // Item

  /** The item's price needs a point and two decimals, its call number is
      "ReCAP 23-" and five digits, and its barcode is fourteen digits with
      any prefix. */
  lemma {:induction false} ItemShapes(d: seq<(string, Value)>)
    ensures QuietAt(Failures(ItemRules, d), [Name("price")]) <==> Fits(d, "price", ItemPrice)
    ensures QuietAt(Failures(ItemRules, d), [Name("call_no")]) <==> Fits(d, "call_no", ReCAP23Five)
    ensures QuietAt(Failures(ItemRules, d), [Name("barcode")]) <==>
              IsString(d, "barcode") && |Get(d, "barcode").s| == 14 && AllDecimal(Get(d, "barcode").s)
  {
    ItemUniqueAt(3);
    RuleAt(ItemRules, d, 3);
    ItemUniqueAt(1);
    RuleAt(ItemRules, d, 1);
    ItemUniqueAt(2);
    RuleAt(ItemRules, d, 2);
  }

  /** The item's call tag is only "8528", its agency only "43", its
      initials only "EV" or "AUXAM". */
  lemma {:induction false} ItemLiterals(d: seq<(string, Value)>)
    ensures QuietAt(Failures(ItemRules, d), [Name("call_tag")]) <==> Among(d, "call_tag", ["8528"])
    ensures QuietAt(Failures(ItemRules, d), [Name("initials")]) <==> Among(d, "initials", ["EV", "AUXAM"])
    ensures QuietAt(Failures(ItemRules, d), [Name("agency")]) <==> Among(d, "agency", ["43"])
  {
    ItemUniqueAt(0);
    RuleAt(ItemRules, d, 0);
    ItemUniqueAt(7);
    RuleAt(ItemRules, d, 7);
    ItemUniqueAt(8);
    RuleAt(ItemRules, d, 8);
  }

  /** Volume and both messages may be left out or set to None. */
  lemma {:induction false} ItemOptionalFields(d: seq<(string, Value)>)
    ensures (!HasKey(d, "volume") || Get(d, "volume") == Null) ==> QuietAt(Failures(ItemRules, d), [Name("volume")])
    ensures (!HasKey(d, "item_message") || Get(d, "item_message") == Null) ==>
              QuietAt(Failures(ItemRules, d), [Name("item_message")])
    ensures (!HasKey(d, "message") || Get(d, "message") == Null) ==> QuietAt(Failures(ItemRules, d), [Name("message")])
  {
    ItemUniqueAt(4);
    RuleAt(ItemRules, d, 4);
    ItemUniqueAt(5);
    RuleAt(ItemRules, d, 5);
    ItemUniqueAt(6);
    RuleAt(ItemRules, d, 6);
  }

  lemma {:induction false} ItemUniqueAt(i: nat)
    requires i < |ItemRules|
    ensures NameUniqueAt(ItemRules, i)
  {
  }

  /** The values the item tests use: prices with two decimals pass and
      digit-only prices fail, "ReCAP 23-10000" passes and a sixth digit or
      another year fails, "852" is not the call tag. */
  lemma {:induction false} ItemExamples()
    ensures Matches(ItemPrice, "1.23") && Matches(ItemPrice, "12.34") && !Matches(ItemPrice, "123")
    ensures Matches(ReCAP23Five, "ReCAP 23-10000")
    ensures !Matches(ReCAP23Five, "ReCAP 23-100000")
    ensures !Matches(ReCAP23Five, "ReCAP 24-10000")
    ensures Matches(FourteenDigits, "12345667890123")
    ensures "852" !in ["8528"]
  {
    PriceExamples();
    var p := ReCAP23Five.shape.prefixes[0];
    assert p == "ReCAP 23-";
    assert "ReCAP 23-10000"[..|p|] == p && "ReCAP 23-10000"[|p|..] == "10000";
    assert "ReCAP 24-10000"[..|p|] != p by {
      assert "ReCAP 24-10000"[..|p|][7] == '4';
    }
  }

  // ---------------------------------------------------------------------
  // Invoice, order, bibliographic data

  /** Invoice price, shipping, tax and net price are exactly three digits;
      copies is one or more digits; the date is any string. */
  lemma {:induction false} InvoiceShapes(d: seq<(string, Value)>)
    ensures QuietAt(Failures(InvoiceRules, d), [Name("price")]) <==>
              IsString(d, "price") && |Get(d, "price").s| == 3 && AllDecimal(Get(d, "price").s)
    ensures QuietAt(Failures(InvoiceRules, d), [Name("shipping")]) <==>
              IsString(d, "shipping") && |Get(d, "shipping").s| == 3 && AllDecimal(Get(d, "shipping").s)
    ensures QuietAt(Failures(InvoiceRules, d), [Name("copies")]) <==>
              IsString(d, "copies") && |Get(d, "copies").s| >= 1 && AllDecimal(Get(d, "copies").s)
    ensures QuietAt(Failures(InvoiceRules, d), [Name("date")]) <==> IsString(d, "date")
  {
    InvoiceUniqueAt(1);
    RuleAt(InvoiceRules, d, 1);
    InvoiceUniqueAt(2);
    RuleAt(InvoiceRules, d, 2);
    InvoiceUniqueAt(6);
    RuleAt(InvoiceRules, d, 6);
    InvoiceUniqueAt(0);
    RuleAt(InvoiceRules, d, 0);
  }

  /** Tax and net price follow the same three-digit rule. */
  lemma {:induction false} InvoiceTaxAndNet(d: seq<(string, Value)>)
    ensures QuietAt(Failures(InvoiceRules, d), [Name("tax")]) <==>
              IsString(d, "tax") && |Get(d, "tax").s| == 3 && AllDecimal(Get(d, "tax").s)
    ensures QuietAt(Failures(InvoiceRules, d), [Name("net_price")]) <==>
              IsString(d, "net_price") && |Get(d, "net_price").s| == 3 && AllDecimal(Get(d, "net_price").s)
  {
    InvoiceUniqueAt(3);
    RuleAt(InvoiceRules, d, 3);
    InvoiceUniqueAt(4);
    RuleAt(InvoiceRules, d, 4);
  }

  lemma {:induction false} InvoiceUniqueAt(i: nat)
    requires i < |InvoiceRules|
    ensures NameUniqueAt(InvoiceRules, i)
  {
  }

  /** The order price is three or more digits; location and fund are any
      strings. */
  lemma {:induction false} OrderShapes(d: seq<(string, Value)>)
    ensures QuietAt(Failures(OrderRules, d), [Name("price")]) <==>
              IsString(d, "price") && |Get(d, "price").s| >= 3 && AllDecimal(Get(d, "price").s)
    ensures QuietAt(Failures(OrderRules, d), [Name("location")]) <==> IsString(d, "location")
    ensures QuietAt(Failures(OrderRules, d), [Name("fund")]) <==> IsString(d, "fund")
  {
    RuleAt(OrderRules, d, 0);
    RuleAt(OrderRules, d, 1);
    RuleAt(OrderRules, d, 2);
  }

  /** The bibliographic call number follows the item's rule; the vendor is
      "AUXAM" or "EV" and the identifier only "RL". */
  lemma {:induction false} BibDataShapes(d: seq<(string, Value)>)
    ensures QuietAt(Failures(BibDataRules, d), [Name("call_no")]) <==> Fits(d, "call_no", ReCAP23Five)
    ensures QuietAt(Failures(BibDataRules, d), [Name("vendor")]) <==> Among(d, "vendor", ["AUXAM", "EV"])
    ensures QuietAt(Failures(BibDataRules, d), [Name("rl_identifier")]) <==> Among(d, "rl_identifier", ["RL"])
  {
    RuleAt(BibDataRules, d, 0);
    RuleAt(BibDataRules, d, 1);
    RuleAt(BibDataRules, d, 2);
  }
}

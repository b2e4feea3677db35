/**
 * The record schemas of the current validator and its item/order
 * combination rule.
 *
 * An item is validated against one of three schemas, chosen by its
 * `library` key: the research libraries ("RL"), the branch libraries ("BL")
 * and Brooklyn ("BPL"). A monograph record carries a list of such items and
 * is checked in two stages: first every item's (item location, item type,
 * order location) triple is looked up in a fixed table, then the schema
 * validates every field; the failures of both stages are reported together,
 * the combination failures first. Every other material type is validated by
 * a schema without items that forbids undeclared keys.
 */
module ShelfModels {
  import opened Values
  import opened Patterns
  import opened Fields

  const Vendors: seq<string> := ["EVP", "AUXAM", "LEILA"]

  /** The research item locations; the schema's enumeration lists "rcmb2"
      twice and the duplicate collapses. */
  const ItemLocations: seq<string> := ["rcmb2", "rcmf2", "rcmg2", "rc2ma", "rcmp2", "rcph2", "rcpm2", "rcpt2", "rc2cf"]

  const OrderLocations: seq<string> := ["MAB", "MAF", "MAG", "MAL", "MAP", "MAS", "PAD", "PAH", "PAM", "PAT", "SC"]

  const OtherMaterialTypes: seq<string> :=
    ["catalogue_raissonne", "dance", "multipart", "pamphlet", "non-standard_binding_packaging"]

  // ---------------------------------------------------------------------
  // Items

  /** ItemNYPLRL */
  const ResearchItem: Variant := Variant("RL", [
    Req("item_call_tag", OneOf(["8528"])),
    Req("item_call_no", Shaped(ReCAPCallNo)),
    Req("item_barcode", Shaped(BarcodeRL)),
    Req("item_price", Shaped(ItemPrice)),
    Opt("item_volume", Free),
    Opt("item_message", Shaped(CapsMessage)),
    Opt("message", Shaped(CapsMessage)),
    Req("item_vendor_code", OneOf(Vendors)),
    Req("item_agency", OneOf(["43"])),
    Opt("item_location", OneOf(ItemLocations)),
    Opt("item_type", OneOf(["55", "2"])),
    Req("library", OneOf(["RL"])),
    Req("item_ind1", OneOf([" "])),
    Req("item_ind2", OneOf(["1"]))
  ], false)

  /** ItemNYPLBL and ItemBPL: the same fields, differing in the barcode
      prefix and the library tag. */
  function CirculatingItemRules(library: string, barcode: Pattern): seq<FieldRule>
  {
    [
      Req("item_call_tag", OneOf(["8528"])),
      Req("item_call_no", Free),
      Req("item_barcode", Shaped(barcode)),
      Req("item_price", Shaped(ItemPrice)),
      Opt("item_volume", Free),
      Opt("item_message", Free),
      Opt("message", Free),
      Req("item_vendor_code", Free),
      Req("item_agency", Free),
      Req("item_location", Free),
      Req("item_type", Free),
      Req("library", OneOf([library])),
      Req("item_ind1", OneOf([" "])),
      Req("item_ind2", OneOf(["1"]))
    ]
  }

  const BranchItem: Variant := Variant("BL", CirculatingItemRules("BL", BarcodeBL), false)

  const BrooklynItem: Variant := Variant("BPL", CirculatingItemRules("BPL", BarcodeBPL), false)

  /** The `Item` union, in declaration order, discriminated by "library". */
  const ItemVariants: seq<Variant> := [ResearchItem, BranchItem, BrooklynItem]

  // ---------------------------------------------------------------------
  // Records

  /** The invoice and order fields both record schemas share. */
  const InvoiceAndOrderRules: seq<FieldRule> := [
    Req("invoice_date", Shaped(SixDigits)),
    Req("invoice_price", Shaped(DigitsMin3)),
    Req("invoice_shipping", Shaped(DigitsMin1)),
    Req("invoice_tax", Shaped(DigitsMin1)),
    Req("invoice_net_price", Shaped(DigitsMin3)),
    Req("invoice_number", Free),
    Req("invoice_copies", Shaped(ZeroToNineRun)),
    Req("order_price", Shaped(DigitsMin3)),
    Req("order_location", OneOf(OrderLocations)),
    Req("order_fund", Free),
    Req("order_ind1", OneOf([" "])),
    Req("order_ind2", OneOf([" "]))
  ]

  /** MonographRecord's fields before `items`. */
  const MonographRules: seq<FieldRule> := [
    Req("material_type", OneOf(["monograph_record"])),
    Req("bib_call_no", Shaped(ReCAPCallNo)),
    Req("bib_call_no_ind1", OneOf(["8"])),
    Req("bib_call_no_ind2", OneOf([" "])),
    Req("bib_vendor_code", OneOf(Vendors)),
    Req("lcc", Free)
  ] + InvoiceAndOrderRules

  /** OtherMaterialRecord's fields; undeclared keys are forbidden. */
  const OtherMaterialRules: seq<FieldRule> := [
    Req("material_type", OneOf(OtherMaterialTypes)),
    Req("bib_vendor_code", OneOf(Vendors)),
    Req("lcc", Free)
  ] + InvoiceAndOrderRules + [
    Req("library", OneOf(["RL", "BPL", "BL"]))
  ]

  /** What the schema itself reports for a monograph record: the declared
      fields in order, then the items list. Undeclared keys are ignored. */
  function MonographFieldFailures(record: seq<(string, Value)>): seq<RawFailure>
  {
    Validate(MonographRules, false, record, []) + CheckTaggedList(ItemVariants, "library", record, "items", [])
  }

  /** OtherMaterialRecord's failures: declared fields, then undeclared keys. */
  function OtherMaterialFailures(record: seq<(string, Value)>): seq<RawFailure>
  {
    Validate(OtherMaterialRules, true, record, [])
  }

  // ---------------------------------------------------------------------
  // The item/order combination rule

  /** (item_location, item_type, order_location) as looked up in an item
      and its record; a missing key reads as None. */
  datatype Group = Group(location: Value, itemType: Value, orderLocation: Value)

  function G(location: string, itemType: string, orderLocation: string): Group
  {
    Group(Str(location), Str(itemType), Str(orderLocation))
  }

  function GNoType(location: string, orderLocation: string): Group
  {
    Group(Str(location), Null, Str(orderLocation))
  }

  /** valid_types */
  const ValidTypes: seq<Group> := [
    G("rcmb2", "2", "MAB"),
    G("rcmf2", "55", "MAF"),
    GNoType("rcmf2", "MAF"),
    G("rcmg2", "55", "MAG"),
    GNoType("rcmg2", "MAG"),
    G("rc2ma", "55", "MAL"),
    GNoType("rc2ma", "MAL"),
    Group(Null, Null, Str("MAL")),
    Group(Null, Str("55"), Str("MAL")),
    G("rcmp2", "2", "MAP"),
    G("rcmb2", "2", "MAS"),
    G("rcph2", "55", "PAH"),
    GNoType("rcph2", "PAH"),
    G("rcpm2", "55", "PAM"),
    GNoType("rcpm2", "PAM"),
    G("rcpt2", "55", "PAT"),
    GNoType("rcpt2", "PAT"),
    G("rc2cf", "55", "SC"),
    GNoType("rc2cf", "SC")
  ]

  predicate HasNone(g: Group)
  {
    g.location == Null || g.itemType == Null || g.orderLocation == Null
  }

  /** The rule lets a group through when the table lists it or when any of
      its three values is None. */
  predicate Passes(valid: seq<Group>, g: Group)
  {
    g in valid || HasNone(g)
  }


  const ComboMsg := "Check item and order data; combination is not valid."

  /** The failure reported for the item at 0-based position `n`: its path
      starts with the position as text. */
  function ComboFailure(n: nat, g: Group): RawFailure
  {
    RawFailure(LocationCheck, [Name(NatToString(n)), Name("item_location"), Name("item_type"), Name("order_location")],
               ComboMsg,
               List([g.location, g.itemType, g.orderLocation]), None)
  }

  function GroupOf(item: seq<(string, Value)>, orderLocation: Value): Group
  {
    Group(Get(item, "item_location"), Get(item, "item_type"), orderLocation)
  }

  /** What `for item in items` visits for the record's "items" value: a list
      its elements, a str its characters, a dict its keys, None nothing (the
      loop is skipped); an int cannot be iterated. */
  function Iterated(v: Value): (r: Result<seq<Value>>)
    ensures v.List? ==> r == Ok(v.elems)
    ensures v.Null? ==> r == Ok([])
    ensures r.Ok? ==> forall x :: x in r.value && !x.Dict? ==> v.List? || x.Str?
  {
    match v
    case Null => Ok([])
    case List(es) => Ok(es)
    case Str(s) => Ok(seq(|s|, i requires 0 <= i < |s| => Str([s[i]])))
    case Dict(es) => Ok(seq(|es|, i requires 0 <= i < |es| => Str(es[i].0)))
    case Int(_) => Raised(TypeError)
  }

  /** The combination failures of the first `n` visited items, or the
      exception the loop raises on the first element that is not a mapping
      (`.get` on it). */
  function ComboFailures(valid: seq<Group>, items: seq<Value>, orderLocation: Value, n: nat): Result<seq<RawFailure>>
    requires n <= |items|
  {
    if n == 0 then Ok([])
    else
      match ComboFailures(valid, items, orderLocation, n - 1)
      case Raised(e) => Raised(e)
      case Ok(fs) =>
        if !items[n - 1].Dict? then Raised(AttributeError)
        else
          var g := GroupOf(items[n - 1].entries, orderLocation);
          Ok(fs + if Passes(valid, g) then [] else [ComboFailure(n - 1, g)])
  }

  /** match_locations followed by the schema: the combination failures, then
      every failure of the schema. An empty list is acceptance. */
  function MonographOutcome(record: seq<(string, Value)>): Result<seq<RawFailure>>
  {
    match Iterated(Get(record, "items"))
    case Raised(e) => Raised(e)
    case Ok(items) =>
      match ComboFailures(ValidTypes, items, Get(record, "order_location"), |items|)
      case Raised(e) => Raised(e)
      case Ok(combo) => Ok(combo + MonographFieldFailures(record))
  }

  lemma {:induction false} RaisedPersists(valid: seq<Group>, items: seq<Value>, orderLocation: Value, m: nat, n: nat)
    requires m <= n <= |items|
    requires ComboFailures(valid, items, orderLocation, m).Raised?
    ensures ComboFailures(valid, items, orderLocation, n) == ComboFailures(valid, items, orderLocation, m)
  {
    if m < n {
      RaisedPersists(valid, items, orderLocation, m, n - 1);
    }
  }

  lemma {:induction false} ComboStep(valid: seq<Group>, items: seq<Value>, orderLocation: Value, n: nat)
    requires n < |items| && items[n].Dict?
    requires ComboFailures(valid, items, orderLocation, n).Ok?
    ensures var g := GroupOf(items[n].entries, orderLocation);
            ComboFailures(valid, items, orderLocation, n + 1) ==
              Ok(ComboFailures(valid, items, orderLocation, n).value + if Passes(valid, g) then [] else [ComboFailure(n, g)])
  {
  }

  /** match_locations' loop over the visited items: a failure for each
      mapping whose group `valid` does not list and that holds no None; a
      value that is not a mapping raises on `.get`. */
  method CheckCombinations(valid: seq<Group>, items: seq<Value>, orderLocation: Value)
    returns (r: Result<seq<RawFailure>>)
    ensures r == ComboFailures(valid, items, orderLocation, |items|)
  {
    var validationErrors: seq<RawFailure> := [];
    var itemNumber := 0;
    while itemNumber < |items|
      invariant itemNumber <= |items|
      invariant ComboFailures(valid, items, orderLocation, itemNumber) == Ok(validationErrors)
    {
      var next := CheckItem(valid, items, orderLocation, itemNumber, validationErrors);
      if next.Raised? {
        RaisedPersists(valid, items, orderLocation, itemNumber + 1, |items|);
        return next;
      }
      validationErrors := next.value;
      itemNumber := itemNumber + 1;
    }
    r := Ok(validationErrors);
  }

  /** One pass of the loop: the item at `itemNumber` checked, its failure
      appended to `validationErrors` when the rule rejects its group. */
  method CheckItem(valid: seq<Group>, items: seq<Value>, orderLocation: Value, itemNumber: nat,
                   validationErrors: seq<RawFailure>)
    returns (next: Result<seq<RawFailure>>)
    requires itemNumber < |items|
    requires ComboFailures(valid, items, orderLocation, itemNumber) == Ok(validationErrors)
    ensures next == ComboFailures(valid, items, orderLocation, itemNumber + 1)
  {
    var item := items[itemNumber];
    if !item.Dict? {
      return Raised(AttributeError);
    }
    var itemGroup := Group(Get(item.entries, "item_location"), Get(item.entries, "item_type"), orderLocation);
    assert itemGroup == GroupOf(item.entries, orderLocation);
    ComboStep(valid, items, orderLocation, itemNumber);
    if itemGroup in valid {
      assert validationErrors + [] == validationErrors;
      next := Ok(validationErrors);
    } else if HasNone(itemGroup) {
      assert validationErrors + [] == validationErrors;
      next := Ok(validationErrors);
    } else {
      next := Ok(validationErrors + [ComboFailure(itemNumber, itemGroup)]);
    }
  }

  /** The wrap validator around the monograph schema: the combination
      failures, then the schema's own. */
  method MatchLocations(record: seq<(string, Value)>) returns (outcome: Result<seq<RawFailure>>)
    ensures outcome == MonographOutcome(record)
  {
    var orderLocation := Get(record, "order_location");
    var itemList := Iterated(Get(record, "items"));
    if itemList.Raised? {
      return Raised(itemList.exception);
    }
    var validationErrors := CheckCombinations(ValidTypes, itemList.value, orderLocation);
    if validationErrors.Raised? {
      return Raised(validationErrors.exception);
    }
    return Ok(validationErrors.value + MonographFieldFailures(record));
  }

  // ---------------------------------------------------------------------
  // Facts about the combination rule

  /** The item at position `k` is a mapping whose group the rule rejects. */
  predicate Offending(valid: seq<Group>, items: seq<Value>, orderLocation: Value, k: nat)
    requires k < |items|
  {
    items[k].Dict? && !Passes(valid, GroupOf(items[k].entries, orderLocation))
  }

  /** When the loop completes over the first `n` items, every one of them
      was a mapping. */
  lemma {:induction false} ComboVisitedMappings(valid: seq<Group>, items: seq<Value>, orderLocation: Value, n: nat)
    requires n <= |items|
    requires ComboFailures(valid, items, orderLocation, n).Ok?
    ensures forall k :: 0 <= k < n ==> items[k].Dict?
  {
    if n > 0 {
      ComboVisitedMappings(valid, items, orderLocation, n - 1);
    }
  }

  /** Each offending item among the first `n` yields the failure for its
      position and group. */
  lemma {:induction false} ComboReportsOffending(valid: seq<Group>, items: seq<Value>, orderLocation: Value, n: nat, k: nat)
    requires k < n <= |items|
    requires ComboFailures(valid, items, orderLocation, n).Ok?
    requires Offending(valid, items, orderLocation, k)
    ensures ComboFailure(k, GroupOf(items[k].entries, orderLocation)) in ComboFailures(valid, items, orderLocation, n).value
  {
    var prev := ComboFailures(valid, items, orderLocation, n - 1);
    assert prev.Ok?;
    ComboStep(valid, items, orderLocation, n - 1);
    if k < n - 1 {
      ComboReportsOffending(valid, items, orderLocation, n - 1, k);
    }
  }

  /** Nothing but those failures is reported. */
  lemma {:induction false} ComboOnlyOffending(valid: seq<Group>, items: seq<Value>, orderLocation: Value, n: nat, f: RawFailure)
    requires n <= |items|
    requires ComboFailures(valid, items, orderLocation, n).Ok?
    requires f in ComboFailures(valid, items, orderLocation, n).value
    ensures exists k :: 0 <= k < n && Offending(valid, items, orderLocation, k) &&
                        f == ComboFailure(k, GroupOf(items[k].entries, orderLocation))
  {
    var prev := ComboFailures(valid, items, orderLocation, n - 1);
    assert prev.Ok?;
    ComboStep(valid, items, orderLocation, n - 1);
    if f in prev.value {
      ComboOnlyOffending(valid, items, orderLocation, n - 1, f);
    } else {
      assert Offending(valid, items, orderLocation, n - 1);
    }
  }

  /** Distinct positions never share a failure path. */
  lemma {:induction false} ComboLocsDistinct(j: nat, k: nat, g: Group, h: Group)
    requires j != k
    ensures ComboFailure(j, g).loc != ComboFailure(k, h).loc
  {
    NatToStringInjective(j, k);
    assert ComboFailure(j, g).loc[0] != ComboFailure(k, h).loc[0];
  }

  /** A group the table lists passes, whatever else holds. */
  lemma {:induction false} TablePasses(valid: seq<Group>, items: seq<Value>, orderLocation: Value, k: nat)
    requires k < |items| && items[k].Dict?
    requires GroupOf(items[k].entries, orderLocation) in valid
    ensures !Offending(valid, items, orderLocation, k)
  {
  }

  /** A record without an items value skips the loop: the outcome is the
      schema's own failures. */
  lemma {:induction false} NoItemsNoCombination(record: seq<(string, Value)>)
    requires Get(record, "items") == Null
    ensures MonographOutcome(record) == Ok(MonographFieldFailures(record))
  {
    assert ComboFailures(ValidTypes, [], Get(record, "order_location"), 0) == Ok([]);
    assert [] + MonographFieldFailures(record) == MonographFieldFailures(record);
  }

  /** Combination failures come first, in item order, then the schema's;
      the record is accepted exactly when no item offends and the schema
      reports nothing. */
  lemma {:induction false} AcceptedIff(record: seq<(string, Value)>)
    requires Get(record, "items").List?
    ensures var items := Get(record, "items").elems;
            var orderLocation := Get(record, "order_location");
            MonographOutcome(record) == Ok([]) <==>
              (forall k :: 0 <= k < |items| ==> items[k].Dict? && !Offending(ValidTypes, items, orderLocation, k))
              && MonographFieldFailures(record) == []
  {
    var items := Get(record, "items").elems;
    var orderLocation := Get(record, "order_location");
    var combo := ComboFailures(ValidTypes, items, orderLocation, |items|);
    if combo.Ok? {
      ComboVisitedMappings(ValidTypes, items, orderLocation, |items|);
      ConcatEmpty(combo.value, MonographFieldFailures(record));
      if forall k :: 0 <= k < |items| ==> items[k].Dict? && !Offending(ValidTypes, items, orderLocation, k) {
        if combo.value != [] {
          ComboOnlyOffending(ValidTypes, items, orderLocation, |items|, combo.value[0]);
        }
      } else {
        var k :| 0 <= k < |items| && !(items[k].Dict? && !Offending(ValidTypes, items, orderLocation, k));
        ComboReportsOffending(ValidTypes, items, orderLocation, |items|, k);
      }
    } else {
      var k := FirstNonMapping(ValidTypes, items, orderLocation, |items|);
    }
  }

  /** When the loop raises, some visited item is not a mapping. */
  lemma {:induction false} FirstNonMapping(valid: seq<Group>, items: seq<Value>, orderLocation: Value, n: nat) returns (k: nat)
    requires n <= |items|
    requires ComboFailures(valid, items, orderLocation, n).Raised?
    ensures k < n && !items[k].Dict?
  {
    if ComboFailures(valid, items, orderLocation, n - 1).Raised? {
      k := FirstNonMapping(valid, items, orderLocation, n - 1);
    } else {
      k := n - 1;
    }
  }

  // ---------------------------------------------------------------------
  // Facts about the schemas

  /** A research item may omit item_location and item_type: neither draws
      a failure at that field's path. */
  lemma {:induction false} ResearchItemMayOmitLocation(d: seq<(string, Value)>, prefix: Path)
    ensures !HasKey(d, "item_location") ==>
              forall f :: f in CheckFields(ResearchItem.rules, d, prefix) ==> f.loc != prefix + [Name("item_location")]
    ensures !HasKey(d, "item_type") ==>
              forall f :: f in CheckFields(ResearchItem.rules, d, prefix) ==> f.loc != prefix + [Name("item_type")]
  {
    ResearchFieldRule(d, prefix, 9);
    ResearchFieldRule(d, prefix, 10);
  }

  /** Field `i` of the research item draws no failure at its path exactly
      when it passes. */
  lemma {:induction false} ResearchFieldRule(d: seq<(string, Value)>, prefix: Path, i: nat)
    requires i in {2, 5, 9, 10}
    ensures (forall f :: f in CheckFields(ResearchItem.rules, d, prefix) ==> f.loc != prefix + [Name(ResearchItem.rules[i].name)])
            <==> FieldOk(ResearchItem.rules[i], d)
  {
    if i == 2 { ResearchUniqueAt2(); }
    else if i == 5 { ResearchUniqueAt5(); }
    else if i == 9 { ResearchUniqueAt9(); }
    else { ResearchUniqueAt10(); }
    FieldSilentIff(ResearchItem.rules, d, prefix, i);
  }

  lemma {:induction false} ResearchUniqueAt2() ensures NameUniqueAt(ResearchItem.rules, 2) { }
  lemma {:induction false} ResearchUniqueAt5() ensures NameUniqueAt(ResearchItem.rules, 5) { }
  lemma {:induction false} ResearchUniqueAt9() ensures NameUniqueAt(ResearchItem.rules, 9) { }
  lemma {:induction false} ResearchUniqueAt10() ensures NameUniqueAt(ResearchItem.rules, 10) { }

  /** An item without item_location or item_type draws no combination
      failure either: the missing value reads as None, and a group holding
      None passes. */
  lemma {:induction false} OmittedFieldPasses(valid: seq<Group>, d: seq<(string, Value)>, items: seq<Value>, orderLocation: Value, k: nat)
    requires !HasKey(d, "item_location") || !HasKey(d, "item_type")
    requires k < |items| && items[k] == Dict(d)
    ensures !Offending(valid, items, orderLocation, k)
  {
    assert HasNone(GroupOf(d, orderLocation));
  }

  /** The same fourteen-digit barcode with the research prefix passes the
      research schema and fails both others, at the barcode's path. */
  lemma {:induction false} BarcodeDependsOnLibrary(d: seq<(string, Value)>, prefix: Path)
    requires HasKey(d, "item_barcode") && Get(d, "item_barcode") == Str("33433123456789")
    ensures forall f :: f in CheckFields(ResearchItem.rules, d, prefix) ==> f.loc != prefix + [Name("item_barcode")]
    ensures exists f :: f in CheckFields(BranchItem.rules, d, prefix) && f.loc == prefix + [Name("item_barcode")]
    ensures exists f :: f in CheckFields(BrooklynItem.rules, d, prefix) && f.loc == prefix + [Name("item_barcode")]
  {
    ResearchBarcodeOnlyUnderRL();
    ResearchBarcodeAccepted(d, prefix);
    CirculatingBarcodeRejected("BL", BarcodeBL, d, prefix);
    CirculatingBarcodeRejected("BPL", BarcodeBPL, d, prefix);
  }

  lemma {:induction false} ResearchBarcodeAccepted(d: seq<(string, Value)>, prefix: Path)
    requires HasKey(d, "item_barcode") && Get(d, "item_barcode").Str?
    requires Matches(BarcodeRL, Get(d, "item_barcode").s)
    ensures forall f :: f in CheckFields(ResearchItem.rules, d, prefix) ==> f.loc != prefix + [Name("item_barcode")]
  {
    ResearchFieldRule(d, prefix, 2);
  }

  lemma {:induction false} CirculatingBarcodeRejected(library: string, barcode: Pattern, d: seq<(string, Value)>, prefix: Path)
    requires HasKey(d, "item_barcode") && Get(d, "item_barcode").Str?
    requires !Matches(barcode, Get(d, "item_barcode").s)
    ensures exists f :: f in CheckFields(CirculatingItemRules(library, barcode), d, prefix) &&
                        f.loc == prefix + [Name("item_barcode")]
  {
    FieldSilentIff(CirculatingItemRules(library, barcode), d, prefix, 2);
  }

  /** Research messages need a first character outside a..z (the rule has
      no end anchor, so the rest is unchecked). */
  lemma {:induction false} ResearchMessageRule(d: seq<(string, Value)>, prefix: Path, c: char, rest: string)
    requires HasKey(d, "item_message") && Get(d, "item_message") == Str([c] + rest)
    ensures (forall f :: f in CheckFields(ResearchItem.rules, d, prefix) ==> f.loc != prefix + [Name("item_message")])
            <==> !('a' <= c <= 'z')
  {
    CapsRuleChecksFirstCharOnly(c, rest);
    assert ResearchItem.rules[5] == Opt("item_message", Shaped(CapsMessage));
    ResearchFieldRule(d, prefix, 5);
  }

  /** Branch and Brooklyn messages take any string. */
  lemma {:induction false} CirculatingMessageFree(library: string, barcode: Pattern, d: seq<(string, Value)>, prefix: Path)
    requires HasKey(d, "item_message") && Get(d, "item_message").Str?
    ensures forall f :: f in CheckFields(CirculatingItemRules(library, barcode), d, prefix) ==>
              f.loc != prefix + [Name("item_message")]
  {
    FieldSilentIff(CirculatingItemRules(library, barcode), d, prefix, 5);
  }

  /** The record's price and date rules: invoice and order prices are at
      least three digits, the invoice date exactly six. */
  lemma {:induction false} MonographPriceAndDate(d: seq<(string, Value)>)
    ensures (forall f :: f in CheckFields(MonographRules, d, []) ==> f.loc != [Name("invoice_price")])
            <==> HasKey(d, "invoice_price") && Get(d, "invoice_price").Str? &&
                 |Get(d, "invoice_price").s| >= 3 && AllDecimal(Get(d, "invoice_price").s)
    ensures (forall f :: f in CheckFields(MonographRules, d, []) ==> f.loc != [Name("order_price")])
            <==> HasKey(d, "order_price") && Get(d, "order_price").Str? &&
                 |Get(d, "order_price").s| >= 3 && AllDecimal(Get(d, "order_price").s)
    ensures (forall f :: f in CheckFields(MonographRules, d, []) ==> f.loc != [Name("invoice_date")])
            <==> HasKey(d, "invoice_date") && Get(d, "invoice_date").Str? &&
                 |Get(d, "invoice_date").s| == 6 && AllDecimal(Get(d, "invoice_date").s)
  {
    MonographUniqueAt7();
    MonographRuleAt(d, 7, "invoice_price", DigitsMin3);
    MonographUniqueAt13();
    MonographRuleAt(d, 13, "order_price", DigitsMin3);
    MonographUniqueAt6();
    MonographRuleAt(d, 6, "invoice_date", SixDigits);
  }

  lemma {:induction false} MonographUniqueAt6() ensures NameUniqueAt(MonographRules, 6) { }
  lemma {:induction false} MonographUniqueAt7() ensures NameUniqueAt(MonographRules, 7) { }
  lemma {:induction false} MonographUniqueAt13() ensures NameUniqueAt(MonographRules, 13) { }

  /** The record field declared at `i` with a pattern draws no failure at
      its path exactly when its value is a string the pattern matches. */
  lemma {:induction false} MonographRuleAt(d: seq<(string, Value)>, i: nat, name: string, p: Pattern)
    requires i < |MonographRules| && NameUniqueAt(MonographRules, i)
    requires MonographRules[i] == Req(name, Shaped(p))
    ensures (forall f :: f in CheckFields(MonographRules, d, []) ==> f.loc != [Name(name)])
            <==> HasKey(d, name) && Get(d, name).Str? && Matches(p, Get(d, name).s)
  {
    FieldSilentIff(MonographRules, d, [], i);
  }

  /** Items and the call number are not declared for other materials, so
      either key in the input is reported as an extra input. */
  lemma {:induction false} OtherMaterialRejectsItems(d: seq<(string, Value)>, j: nat)
    requires j < |d| && d[j].0 in {"items", "bib_call_no"}
    ensures RawFailure(ExtraForbidden, [Name(d[j].0)], ExtraMsg, d[j].1, None)
            in OtherMaterialFailures(d)
  {
    forall i | 0 <= i < |OtherMaterialRules| ensures OtherMaterialRules[i].name != d[j].0 {
      if i < 8 { } else { }
    }
    assert !Declared(OtherMaterialRules, d[j].0);
    assert [] + [Name(d[j].0)] == [Name(d[j].0)];
    ExtraReported(OtherMaterialRules, d, [], j);
    assert OtherMaterialFailures(d) == CheckFields(OtherMaterialRules, d, []) + ExtraFailures(OtherMaterialRules, d, []);
  }

  /** An accepted other-material record names one of the three libraries. */
  lemma {:induction false} OtherMaterialLibrary(d: seq<(string, Value)>)
    requires OtherMaterialFailures(d) == []
    ensures Get(d, "library") in [Str("RL"), Str("BPL"), Str("BL")]
  {
    ValidateEmpty(OtherMaterialRules, true, d, []);
    assert OtherMaterialRules[15] == Req("library", OneOf(["RL", "BPL", "BL"]));
    assert FieldOk(OtherMaterialRules[15], d);
  }

  /** The item's `library` value selects its schema; any other value is a
      single union_tag_invalid failure at the item's path. */
  lemma {:induction false} LibraryDispatch(item: seq<(string, Value)>, loc: Path, t: string)
    requires HasKey(item, "library") && Get(item, "library") == Str(t)
    ensures t == "RL" ==> CheckTagged(ItemVariants, "library", Dict(item), loc) ==
                           Validate(ResearchItem.rules, false, item, loc + [Name("RL")])
    ensures t == "BL" ==> CheckTagged(ItemVariants, "library", Dict(item), loc) ==
                           Validate(BranchItem.rules, false, item, loc + [Name("BL")])
    ensures t == "BPL" ==> CheckTagged(ItemVariants, "library", Dict(item), loc) ==
                            Validate(BrooklynItem.rules, false, item, loc + [Name("BPL")])
    ensures t !in ["RL", "BL", "BPL"] ==>
              |CheckTagged(ItemVariants, "library", Dict(item), loc)| == 1 &&
              CheckTagged(ItemVariants, "library", Dict(item), loc)[0].kind == UnionTagInvalid &&
              CheckTagged(ItemVariants, "library", Dict(item), loc)[0].loc == loc
  {
    assert Tags(ItemVariants) == ["RL", "BL", "BPL"];
  }
}

/**
 * The record schema of the earlier validator (`src/validate`). A record
 * holds bibliographic fields, one nested item, an order and an invoice. The
 * item's schema is chosen by its `material_type`: a monograph needs a full
 * item, every other material type allows no item field at all.
 *
 * Before the schema runs, a wrap validator looks up the item's location
 * and type and the order's location, together with the material type, in a
 * fixed list of combinations; its failure (at most one) is reported before
 * every failure of the schema. After a successful validation a second
 * validator inspects the call number; what it collects is discarded.
 */
module SrcModels {
  import opened Values
  import opened Patterns
  import opened Fields

  const OrderLocations: seq<string> := ["MAB", "MAF", "MAG", "MAL", "MAP", "MAS", "PAD", "PAH", "PAM", "PAT", "SC"]

  /** The item location enumeration; "rcmb2" is listed twice and the
      duplicate collapses. */
  const ItemLocations: seq<string> := ["rcmb2", "rcmf2", "rcmg2", "rc2ma", "rcmp2", "rcph2", "rcpm2", "rcpt2", "rc2cf"]

  /** The material types that take no item, as ItemNotRequired spells them. */
  const NoItemTypes: seq<string> :=
    ["catalogue_raissonne", "performing_arts_dance", "multipart", "incomplete_set", "pamphlet",
     "non-standard_binding_packaging"]

  /** The same material types as the two validators spell them: the first
      one differs ("catalog_raissonne"). */
  predicate PassType(material: string)
  {
    match material
    case "catalog_raissonne" => true
    case "performing_arts_dance" => true
    case "multipart" => true
    case "incomplete_set" => true
    case "pamphlet" => true
    case "non-standard_binding_packaging" => true
    case _ => false
  }

  // ---------------------------------------------------------------------
  // The schema

  /** Order */
  const OrderRules: seq<FieldRule> := [
    Req("order_price", Shaped(DigitsMin3)),
    Req("order_location", OneOf(OrderLocations)),
    Req("order_fund", Free)
  ]

  /** ItemRequired */
  const ItemRequiredRules: seq<FieldRule> := [
    Req("material_type", OneOf(["monograph_record"])),
    Req("item_call_tag", OneOf(["8528"])),
    Req("item_call_no", Shaped(ReCAPCallNo)),
    Req("item_barcode", Shaped(BarcodeAny)),
    Req("item_price", Shaped(ItemPrice)),
    Opt("item_volume", Free),
    Opt("item_message", Shaped(CapsMessage)),
    Opt("message", Shaped(CapsMessage)),
    Req("item_vendor_code", OneOf(["EVP", "AUXAM"])),
    Req("item_agency", Free),
    Req("item_location", OneOf(ItemLocations)),
    Req("item_type", Free)
  ]

  /** ItemNotRequired: only the material type; every other key is extra. */
  const ItemNotRequiredRules: seq<FieldRule> := [Req("material_type", OneOf(NoItemTypes))]

  const MonographItem := Variant("monograph_record", ItemRequiredRules, false)

  /** ItemNotRequired once for each of the given material types. */
  function NoItemVariantsOf(types: seq<string>): (vs: seq<Variant>)
    ensures |vs| == |types|
    ensures forall i :: 0 <= i < |vs| ==> vs[i] == Variant(types[i], ItemNotRequiredRules, true)
  {
    if types == [] then [] else [Variant(types[0], ItemNotRequiredRules, true)] + NoItemVariantsOf(types[1..])
  }

  const NoItemVariants: seq<Variant> := NoItemVariantsOf(NoItemTypes)

  /** The item union, one variant per value of its discriminator. */
  const ItemVariants: seq<Variant> := [MonographItem] + NoItemVariants

  /** Invoice */
  const InvoiceRules: seq<FieldRule> := [
    Req("invoice_date", Shaped(SixDigits)),
    Req("invoice_price", Shaped(DigitsMin3)),
    Req("invoice_shipping", Shaped(DigitsMin1)),
    Req("invoice_tax", Shaped(DigitsMin1)),
    Req("invoice_net_price", Shaped(DigitsMin3)),
    Req("invoice_number", Free),
    Req("invoice_copies", Shaped(ZeroToNineRun))
  ]

  /** Record's own fields, before the item. */
  const RecordRules: seq<FieldRule> := [
    Opt("bib_call_no", Shaped(ReCAPCallNo)),
    Req("bib_vendor_code", OneOf(["AUXAM", "EVP"])),
    Req("rl_identifier", OneOf(["RL"])),
    Req("lcc", Free)
  ]

  /** Every failure of the schema, in declaration order. */
  function RecordFieldFailures(record: seq<(string, Value)>): seq<RawFailure>
  {
    Validate(RecordRules, false, record, [])
    + CheckTaggedField(ItemVariants, "material_type", record, "item", [])
    + CheckNested("Order", OrderRules, false, record, "order", [])
    + CheckNested("Invoice", InvoiceRules, false, record, "invoice", [])
  }

  // ---------------------------------------------------------------------
  // The combination check

  /** `v.get(key)`: a mapping's value (None when absent); anything else
      has no `get`. */
  function GetAttr(v: Value, key: string): (r: Result<Value>)
    ensures r.Ok? <==> v.Dict?
  {
    if v.Dict? then Ok(Get(v.entries, key)) else Raised(AttributeError)
  }

  /** The ten monograph combinations, keyed by the order location (each
      order location occurs in at most one). */
  predicate Listed(location: string, itemType: string, orderLocation: string)
  {
    match orderLocation
    case "MAB" => location == "rcmb2" && itemType == "2"
    case "MAF" => location == "rcmf2" && itemType == "55"
    case "MAG" => location == "rcmg2" && itemType == "55"
    case "MAL" => location == "rc2ma" && itemType == "55"
    case "MAP" => location == "rcmp2" && itemType == "2"
    case "MAS" => location == "rcmb2" && itemType == "2"
    case "PAH" => location == "rcph2" && itemType == "55"
    case "PAM" => location == "rcpm2" && itemType == "55"
    case "PAT" => location == "rcpt2" && itemType == "55"
    case "SC" => location == "rc2cf" && itemType == "55"
    case _ => false
  }

  predicate ListedValues(location: Value, itemType: Value, orderLocation: Value)
  {
    location.Str? && itemType.Str? && orderLocation.Str? && Listed(location.s, itemType.s, orderLocation.s)
  }

  const CouldNotCompareMsg := "Could not compare Item and Order records because "
  const NotValidMsg := "(item_location, item_type, order_location) combination is not valid."

  function CouldNotCompare(what: string, loc: Path, input: Value): RawFailure
  {
    RawFailure(LocationCheck, loc, CouldNotCompareMsg + what + " is missing.", input, None)
  }

  /** The failure of the last case: the three values at the three names. */
  function NotValid(location: Value, itemType: Value, orderLocation: Value): RawFailure
  {
    RawFailure(LocationCheck, [Name("item_location"), Name("item_type"), Name("order_location")],
               NotValidMsg,
               List([location, itemType, orderLocation]), None)
  }

  /** The cases of match_locations' `match`, tried in order. */
  function ComboCheck(material: Value, location: Value, itemType: Value, orderLocation: Value,
                      item: Value, order: Value): (fs: seq<RawFailure>)
    ensures |fs| <= 1
  {
    var monograph := material == Str("monograph_record");
    if monograph && ListedValues(location, itemType, orderLocation) then []
    else if monograph && location == Null then
      [CouldNotCompare("item_location", [Name("item"), Name("item_location")], item)]
    else if monograph && itemType == Null then
      [CouldNotCompare("item_type", [Name("item"), Name("item_location")], item)]
    else if monograph && orderLocation == Null then
      [CouldNotCompare("order_location", [Name("order"), Name("order_location")], order)]
    else if material.Str? && PassType(material.s) then []
    else [NotValid(location, itemType, orderLocation)]
  }

  /** The combination failures of a record, or the exception `.get` raises
      on an item or order that is not a mapping. */
  function ComboFailures(record: seq<(string, Value)>): Result<seq<RawFailure>>
  {
    var item := Get(record, "item");
    var order := Get(record, "order");
    if !item.Dict? || !order.Dict? then Raised(AttributeError)
    else
      Ok(ComboCheck(Get(item.entries, "material_type"), Get(item.entries, "item_location"),
                    Get(item.entries, "item_type"), Get(order.entries, "order_location"), item, order))
  }

  // ---------------------------------------------------------------------
  // The call number check

  const CallNoMissingMsg := "record for this material type should have a call_no"
  const CallNoPresentMsg := "records for this material type should not have a call_no"
  const CallNoOtherMsg := "something is wrong with call_no/material_type combination"

  function CallNoFailure(kind: string, msg: string, input: Value): RawFailure
  {
    RawFailure(Custom(kind), [Name("material_type"), Name("bib_call_no")], msg, input, None)
  }

  /** check_required_call_no's cases, with the item as the first case's
      input: what the validator collects and then discards. */
  function CallNoFindings(material: string, bibCallNo: Value, item: Value): (fs: seq<RawFailure>)
    ensures |fs| <= 1
  {
    if material == "monograph_record" && bibCallNo == Null then
      [CallNoFailure("call_no_missing", CallNoMissingMsg, item)]
    else if PassType(material) && bibCallNo == Null then []
    else if PassType(material) then
      [CallNoFailure("call_no_test", CallNoPresentMsg, Null)]
    else
      [CallNoFailure("call_no_test", CallNoOtherMsg, Null)]
  }

  /** The same cases as written: the first one reads its input with
      `self.get("item")`, but this validator runs on the validated model,
      which has no `get`, so that case raises AttributeError. */
  function CallNoCheckAsWritten(material: string, bibCallNo: Value, item: Value): (r: Result<seq<RawFailure>>)
    ensures r.Raised? <==> material == "monograph_record" && bibCallNo == Null
    ensures r.Ok? ==> r.value == CallNoFindings(material, bibCallNo, item)
  {
    if material == "monograph_record" && bibCallNo == Null then Raised(AttributeError)
    else Ok(CallNoFindings(material, bibCallNo, item))
  }

  /** check_required_call_no: the list it builds; the record is returned
      unchanged whatever the list holds. */
  method CheckRequiredCallNo(material: string, bibCallNo: Value, item: Value) returns (validationErrors: seq<RawFailure>)
    ensures validationErrors == CallNoFindings(material, bibCallNo, item)
  {
    validationErrors := [];
    var failure: RawFailure;
    if material == "monograph_record" && bibCallNo == Null {
      failure := CallNoFailure("call_no_missing", CallNoMissingMsg, item);
    } else if PassType(material) && bibCallNo == Null {
      return;
    } else if PassType(material) {
      failure := CallNoFailure("call_no_test", CallNoPresentMsg, Null);
    } else {
      failure := CallNoFailure("call_no_test", CallNoOtherMsg, Null);
    }
    validationErrors := validationErrors + [failure];
  }

  // ---------------------------------------------------------------------
  // The whole validation

  /** What the wrapped handler yields: the schema's failures (empty when it
      accepts), or an exception that escapes it. */
  type Handled = Result<seq<RawFailure>>

  /** match_locations around a handler outcome: the combination failure,
      then the handler's failures; an exception from either escapes. An
      empty list is acceptance. */
  function WrapOutcome(record: seq<(string, Value)>, handled: Handled): Result<seq<RawFailure>>
  {
    match ComboFailures(record)
    case Raised(x) => Raised(x)
    case Ok(combo) =>
      match handled
      case Raised(x) => Raised(x)
      case Ok(fields) => Ok(combo + fields)
  }

  /** The validated item's material type, which the call number check reads. */
  function MaterialOf(record: seq<(string, Value)>): string
  {
    var item := Get(record, "item");
    if item.Dict? && Get(item.entries, "material_type").Str? then Get(item.entries, "material_type").s else ""
  }

  /** The handler: the schema's failures; once it accepts, the call number
      check runs, and it rejects nothing. */
  function Handler(fields: seq<RawFailure>): Handled
  {
    Ok(fields)
  }

  /** Validating a record. */
  function RecordOutcome(record: seq<(string, Value)>): Result<seq<RawFailure>>
  {
    WrapOutcome(record, Handler(RecordFieldFailures(record)))
  }

  /** Validating a record as written. The "after" validator is wrapped
      around match_locations (it is declared later), so it runs only on a
      record match_locations accepted; there the call number check may
      raise. Every other outcome is match_locations' own. */
  function RecordOutcomeAsWritten(record: seq<(string, Value)>): Result<seq<RawFailure>>
  {
    match RecordOutcome(record)
    case Ok(fs) =>
      if fs == [] && CallNoCheckAsWritten(MaterialOf(record), Get(record, "bib_call_no"), Get(record, "item")).Raised?
      then Raised(AttributeError)
      else Ok(fs)
    case Raised(x) => Raised(x)
  }

  /** The wrap validator: the four `.get` look-ups, the combination check,
      then the handler's failures appended. */
  method MatchLocations(record: seq<(string, Value)>, handled: Handled) returns (outcome: Result<seq<RawFailure>>)
    ensures outcome == WrapOutcome(record, handled)
  {
    var item := Get(record, "item");
    var material := GetAttr(item, "material_type");
    if material.Raised? {
      return Raised(material.exception);
    }
    var location := GetAttr(item, "item_location");
    var itemType := GetAttr(item, "item_type");
    var order := Get(record, "order");
    var orderLocation := GetAttr(order, "order_location");
    if orderLocation.Raised? {
      return Raised(orderLocation.exception);
    }
    var validationErrors := ComboCheck(material.value, location.value, itemType.value, orderLocation.value, item, order);
    if handled.Raised? {
      return Raised(handled.exception);
    }
    validationErrors := validationErrors + handled.value;
    outcome := Ok(validationErrors);
  }

  // ---------------------------------------------------------------------
  // Facts

  /** For a monograph whose three values are all strings, the check is
      silent exactly for the listed combinations. */
  lemma {:induction false} ListedIff(location: string, itemType: string, orderLocation: string, item: Value, order: Value)
    ensures ComboCheck(Str("monograph_record"), Str(location), Str(itemType), Str(orderLocation), item, order) == []
            <==> Listed(location, itemType, orderLocation)
  {
  }

  /** Item type "55" is not listed with rcmb2 and MAB ("2" is). */
  lemma {:induction false} RcmbNeedsType2()
    ensures Listed("rcmb2", "2", "MAB") && Listed("rcmb2", "2", "MAS")
    ensures !Listed("rcmb2", "55", "MAB")
    ensures !Listed("rcmf2", "55", "PAD")
  {
  }

  /** A monograph without item_location: one failure at
      ("item", "item_location"), whatever the other values. */
  lemma {:induction false} MissingLocationReported(itemType: Value, orderLocation: Value, item: Value, order: Value)
    ensures ComboCheck(Str("monograph_record"), Null, itemType, orderLocation, item, order) ==
            [CouldNotCompare("item_location", [Name("item"), Name("item_location")], item)]
  {
  }

  /** A missing item_type is reported at ("item", "item_location"), not at
      item_type. */
  lemma {:induction false} MissingTypeReportedAtLocation(location: string, orderLocation: Value, item: Value, order: Value)
    ensures ComboCheck(Str("monograph_record"), Str(location), Null, orderLocation, item, order) ==
            [CouldNotCompare("item_type", [Name("item"), Name("item_location")], item)]
  {
  }

  /** A missing order_location is reported at ("order", "order_location")
      with the order as input. */
  lemma {:induction false} MissingOrderLocationReported(location: string, itemType: string, item: Value, order: Value)
    ensures ComboCheck(Str("monograph_record"), Str(location), Str(itemType), Null, item, order) ==
            [CouldNotCompare("order_location", [Name("order"), Name("order_location")], order)]
  {
  }

  /** Any other combination of a monograph gets the "not valid" failure
      carrying the three values. */
  lemma {:induction false} UnlistedRejected(location: string, itemType: string, orderLocation: string, item: Value, order: Value)
    requires !Listed(location, itemType, orderLocation)
    ensures ComboCheck(Str("monograph_record"), Str(location), Str(itemType), Str(orderLocation), item, order) ==
            [NotValid(Str(location), Str(itemType), Str(orderLocation))]
  {
  }

  /** The item schema accepts "catalogue_raissonne", but the combination
      check only passes "catalog_raissonne": such a record always draws the
      "not valid" failure. */
  lemma {:induction false} CatalogueSpellingRejected(location: Value, itemType: Value, orderLocation: Value, item: Value, order: Value)
    ensures "catalogue_raissonne" in NoItemTypes && !PassType("catalogue_raissonne")
    ensures ComboCheck(Str("catalogue_raissonne"), location, itemType, orderLocation, item, order) ==
            [NotValid(location, itemType, orderLocation)]
  {
  }

  /** And the check's spelling "catalog_raissonne" selects no item schema. */
  lemma {:induction false} CatalogSpellingNoSchema()
    ensures Select(ItemVariants, "catalog_raissonne") == None
    ensures Select(ItemVariants, "catalogue_raissonne").Some?
  {
    assert NoItemTypes[0] == "catalogue_raissonne";
    NoItemSchema(0);
    ItemTags();
    CatalogNotListed();
  }

  lemma {:induction false} CatalogNotListed()
    ensures "catalog_raissonne" != MonographItem.tag && "catalog_raissonne" !in NoItemTypes
  {
  }

  /** The union's tags: the monograph tag, then the types without an item. */
  lemma {:induction false} ItemTags()
    ensures Tags(ItemVariants) == [MonographItem.tag] + NoItemTypes
  {
    assert |Tags(ItemVariants)| == 1 + |NoItemTypes|;
  }

  /** The record is accepted exactly when the combination check and the
      handler are both silent. */
  lemma {:induction false} AcceptedIff(record: seq<(string, Value)>, fields: seq<RawFailure>)
    requires ComboFailures(record).Ok?
    ensures WrapOutcome(record, Ok(fields)) == Ok([]) <==> ComboFailures(record) == Ok([]) && fields == []
  {
    ConcatEmpty(ComboFailures(record).value, fields);
  }

  /** The combination failure comes before the handler's failures. */
  lemma {:induction false} ComboFirst(record: seq<(string, Value)>, fields: seq<RawFailure>)
    requires ComboFailures(record).Ok? && ComboFailures(record).value != []
    ensures WrapOutcome(record, Ok(fields)) == Ok([ComboFailures(record).value[0]] + fields)
  {
    assert |ComboFailures(record).value| == 1;
    assert ComboFailures(record).value == [ComboFailures(record).value[0]];
  }

  /** An item without an item schema allows no other key: a pamphlet item
      carrying item_call_tag draws extra_forbidden at
      ("item", "pamphlet", "item_call_tag"). */
  lemma {:induction false} PamphletItemExtra(record: seq<(string, Value)>, es: seq<(string, Value)>, j: nat)
    requires Get(record, "item") == Dict(es) && Get(es, "material_type") == Str("pamphlet")
    requires j < |es| && es[j].0 == "item_call_tag"
    ensures RawFailure(ExtraForbidden, [Name("item"), Name("pamphlet"), Name("item_call_tag")],
                       ExtraMsg, es[j].1, None) in RecordFieldFailures(record)
  {
    PamphletItemPart(es, j);
    ItemFailureInRecord(record, es, RawFailure(ExtraForbidden, [Name("item"), Name("pamphlet"), Name("item_call_tag")],
                                               ExtraMsg, es[j].1, None));
  }

  /** A failure of the item part is a failure of the record. */
  lemma {:induction false} ItemFailureInRecord(record: seq<(string, Value)>, es: seq<(string, Value)>, f: RawFailure)
    requires Get(record, "item") == Dict(es)
    requires f in CheckTagged(ItemVariants, "material_type", Dict(es), [Name("item")])
    ensures f in RecordFieldFailures(record)
  {
    assert Lookup(record, "item") == Some(Dict(es));
    var item := CheckTaggedField(ItemVariants, "material_type", record, "item", []);
    var empty: Path := [];
    assert empty + [Name("item")] == [Name("item")];
    assert f in item;
    InSecond(f, Validate(RecordRules, false, record, []), item,
             CheckNested("Order", OrderRules, false, record, "order", []),
             CheckNested("Invoice", InvoiceRules, false, record, "invoice", []));
  }

  lemma {:induction false} InSecond<T>(x: T, a: seq<T>, b: seq<T>, c: seq<T>, d: seq<T>)
    requires x in b
    ensures x in a + b + c + d
  {
  }

  /** The item part alone reports the unexpected key under the pamphlet tag. */
  lemma {:induction false} PamphletItemPart(es: seq<(string, Value)>, j: nat)
    requires Get(es, "material_type") == Str("pamphlet")
    requires j < |es| && es[j].0 == "item_call_tag"
    ensures RawFailure(ExtraForbidden, [Name("item"), Name("pamphlet"), Name("item_call_tag")],
                       ExtraMsg, es[j].1, None) in CheckTagged(ItemVariants, "material_type", Dict(es), [Name("item")])
  {
    PamphletSchema();
    var loc := [Name("item")] + [Name("pamphlet")];
    assert HasKey(es, "material_type");
    var v := Select(ItemVariants, "pamphlet").value;
    assert CheckTagged(ItemVariants, "material_type", Dict(es), [Name("item")]) ==
           Validate(v.rules, v.forbidExtra, es, loc);
    ExtraReported(ItemNotRequiredRules, es, loc, j);
    PathOfThree("item", "pamphlet", es[j].0);
  }

  lemma {:induction false} PathOfThree(a: string, b: string, c: string)
    ensures [Name(a)] + [Name(b)] + [Name(c)] == [Name(a), Name(b), Name(c)]
  {
  }

  lemma {:induction false} PamphletSchema()
    ensures Select(ItemVariants, "pamphlet") == Some(Variant("pamphlet", ItemNotRequiredRules, true))
    ensures !Declared(ItemNotRequiredRules, "item_call_tag")
  {
    assert NoItemTypes[4] == "pamphlet";
    NoItemSchema(4);
  }

  /** Each material type without an item selects ItemNotRequired. */
  lemma {:induction false} NoItemSchema(i: nat)
    requires i < |NoItemTypes|
    ensures Select(ItemVariants, NoItemTypes[i]) == Some(Variant(NoItemTypes[i], ItemNotRequiredRules, true))
  {
    var t := NoItemTypes[i];
    assert t != MonographItem.tag;
    assert ItemVariants[1..] == NoItemVariants;
    SelectNoItem(NoItemTypes, t);
  }

  /** Among variants that all carry ItemNotRequired, a listed tag selects
      its own. */
  lemma {:induction false} SelectNoItem(types: seq<string>, t: string)
    requires t in types
    ensures Select(NoItemVariantsOf(types), t) == Some(Variant(t, ItemNotRequiredRules, true))
  {
    if types[0] != t {
      assert NoItemVariantsOf(types)[1..] == NoItemVariantsOf(types[1..]);
      SelectNoItem(types[1..], t);
    }
  }

  /** As written, a monograph record that validation accepts but that has
      no call number raises AttributeError instead of being accepted. */
  lemma {:induction false} MonographWithoutCallNoRaises(record: seq<(string, Value)>)
    requires RecordOutcome(record) == Ok([])
    requires MaterialOf(record) == "monograph_record" && Get(record, "bib_call_no") == Null
    ensures RecordOutcomeAsWritten(record) == Raised(AttributeError)
  {
  }

  /** Apart from that case the outcome as written is the validation's own:
      the call number check rejects nothing, since its list is dropped. */
  lemma {:induction false} CallNoNeverRejects(record: seq<(string, Value)>)
    requires !(RecordOutcome(record) == Ok([]) && MaterialOf(record) == "monograph_record"
               && Get(record, "bib_call_no") == Null)
    ensures RecordOutcomeAsWritten(record) == RecordOutcome(record)
  {
  }

  /** In particular a rejected record is reported as match_locations
      reports it, with or without a call number: the check never runs. */
  lemma {:induction false} RejectedUnaffected(record: seq<(string, Value)>)
    requires RecordOutcome(record).Ok? && RecordOutcome(record).value != []
    ensures RecordOutcomeAsWritten(record) == RecordOutcome(record)
  {
  }

  /** A monograph that does have a call number falls to the last case. */
  lemma {:induction false} MonographWithCallNoFlagged(s: string, item: Value)
    ensures CallNoFindings("monograph_record", Str(s), item) ==
            [CallNoFailure("call_no_test", CallNoOtherMsg, Null)]
  {
  }
}

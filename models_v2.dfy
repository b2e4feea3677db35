/**
 * The second record schema of the earlier validator
 * (`src/validate/models_v2.py`). A record is one of two schemas, chosen by
 * its `material_type`: a monograph carries a list of items, each validated
 * against the schema its `library` key selects (research, branch or
 * Brooklyn), and ignores undeclared keys; every other material type has no
 * items and forbids undeclared keys. Unlike the current validator there is
 * no item/order combination rule and no indicator fields.
 */
module ModelsV2 {
  import opened Values
  import opened Patterns
  import opened Fields

  const Vendors: seq<string> := ["EVP", "AUXAM"]

  /** The research item locations; the enumeration lists "rcmb2" twice and
      the duplicate collapses. */
  const ItemLocations: seq<string> := ["rcmb2", "rcmf2", "rcmg2", "rc2ma", "rcmp2", "rcph2", "rcpm2", "rcpt2", "rc2cf"]

  const OrderLocations: seq<string> := ["MAB", "MAF", "MAG", "MAL", "MAP", "MAS", "PAD", "PAH", "PAM", "PAT", "SC"]

  const OtherMaterialTypes: seq<string> :=
    ["catalogue_raissonne", "performing_arts_dance", "multipart", "pamphlet", "non-standard_binding_packaging"]

  const Libraries: seq<string> := ["RL", "BL", "BPL"]

  // ---------------------------------------------------------------------
  // Items

  /** ItemBPL and ItemNYPLBL: the same fields, differing in the barcode
      prefix and the library tag. */
  function CirculatingItemRules(library: string, barcode: Pattern): seq<FieldRule>
  {
    [
      Req("item_call_tag", OneOf(["8528"])),
      Req("item_call_no", Free),
      Req("item_barcode", Shaped(barcode)),
      Req("item_price", Shaped(ItemPrice)),
      Opt("item_volume", Free),
      Opt("item_message", Free),
      Opt("message", Free),
      Req("item_vendor_code", Free),
      Req("item_agency", Free),
      Req("item_location", Free),
      Req("item_type", Free),
      Req("library", OneOf([library]))
    ]
  }

  const BrooklynItem: Variant := Variant("BPL", CirculatingItemRules("BPL", BarcodeBPL), false)

  const BranchItem: Variant := Variant("BL", CirculatingItemRules("BL", BarcodeBL), false)

  /** ItemNYPLRL */
  const ResearchItem: Variant := Variant("RL", [
    Req("item_call_tag", OneOf(["8528"])),
    Req("item_call_no", Shaped(ReCAPCallNo)),
    Req("item_barcode", Shaped(BarcodeRL)),
    Req("item_price", Shaped(ItemPrice)),
    Opt("item_volume", Free),
    Opt("item_message", Shaped(CapsMessage)),
    Opt("message", Shaped(CapsMessage)),
    Req("item_vendor_code", OneOf(Vendors)),
    Req("item_agency", Free),
    Req("item_location", OneOf(ItemLocations)),
    Req("item_type", Free),
    Req("library", OneOf(["RL"]))
  ], false)

  /** The items' union, in declaration order, discriminated by "library". */
  const ItemVariants: seq<Variant> := [ResearchItem, BranchItem, BrooklynItem]

  // ---------------------------------------------------------------------
  // Records

  /** The invoice and order fields both record schemas share. */
  const InvoiceAndOrderRules: seq<FieldRule> := [
    Req("invoice_date", Shaped(SixDigits)),
    Req("invoice_price", Shaped(DigitsMin3)),
    Req("invoice_shipping", Shaped(DigitsMin1)),
    Req("invoice_tax", Shaped(DigitsMin1)),
    Req("invoice_net_price", Shaped(DigitsMin3)),
    Req("invoice_number", Free),
    Req("invoice_copies", Shaped(ZeroToNineRun)),
    Req("order_price", Shaped(DigitsMin3)),
    Req("order_location", OneOf(OrderLocations)),
    Req("order_fund", Free)
  ]

  /** MonographRecord's fields before `items`. */
  const MonographRules: seq<FieldRule> := [
    Req("material_type", OneOf(["monograph_record"])),
    Req("bib_call_no", Shaped(ReCAPCallNo)),
    Req("bib_vendor_code", OneOf(Vendors)),
    Req("lcc", Free)
  ] + InvoiceAndOrderRules

  /** MonographRecord's last field, after `items`. */
  const MonographLibrary: FieldRule := Req("library", OneOf(Libraries))

  /** OtherMaterialRecord's fields; undeclared keys are forbidden. */
  const OtherMaterialRules: seq<FieldRule> := [
    Req("material_type", OneOf(OtherMaterialTypes)),
    Req("bib_vendor_code", OneOf(Vendors)),
    Req("lcc", Free)
  ] + InvoiceAndOrderRules + [
    Req("library", OneOf(["BPL", "RL", "BL"]))
  ]

  /** What MonographRecord reports, in declaration order: the fields before
      the items, the items list, the library. Undeclared keys are ignored. */
  function MonographFailures(d: seq<(string, Value)>, prefix: Path): seq<RawFailure>
  {
    CheckFields(MonographRules, d, prefix)
    + CheckTaggedList(ItemVariants, "library", d, "items", prefix)
    + CheckField(MonographLibrary, d, prefix)
  }

  /** What OtherMaterialRecord reports: declared fields, then undeclared
      keys. */
  function OtherMaterialFailures(d: seq<(string, Value)>, prefix: Path): seq<RawFailure>
  {
    Validate(OtherMaterialRules, true, d, prefix)
  }

  /** The tags of the record union: each literal value of a schema's
      material_type is a tag of that schema. */
  const RecordTags: seq<string> := ["monograph_record"] + OtherMaterialTypes

  /** Variants that carry only a tag, for the text of a tag failure. */
  function TagOnly(tags: seq<string>): (vs: seq<Variant>)
    ensures Tags(vs) == tags
  {
    if tags == [] then [] else [Variant(tags[0], [], false)] + TagOnly(tags[1..])
  }

  /** The Record union discriminated by "material_type": the failures of
      the schema the tag selects, reported under the tag; a value that is not
      a mapping, lacks the tag or carries an unknown tag yields one failure. */
  function RecordFailures(v: Value): seq<RawFailure>
  {
    if !v.Dict? then [NotAMapping(v, [])]
    else if !HasKey(v.entries, "material_type") then [TagNotFound("material_type", v, [])]
    else
      var t := Get(v.entries, "material_type");
      if t == Str("monograph_record") then MonographFailures(v.entries, [Name(t.s)])
      else if t.Str? && t.s in OtherMaterialTypes then OtherMaterialFailures(v.entries, [Name(t.s)])
      else [TagInvalid(TagOnly(RecordTags), "material_type", t, v, [])]
  }

  // ---------------------------------------------------------------------
  // When a record is accepted

  /** Every declared field of a monograph passes, its items value is a list
      and each item passes the schema its library selects. */
  predicate MonographOk(d: seq<(string, Value)>)
  {
    && (forall i :: 0 <= i < |MonographRules| ==> FieldOk(MonographRules[i], d))
    && HasKey(d, "items") && Get(d, "items").List?
    && (forall k :: 0 <= k < |Get(d, "items").elems| ==> TaggedOk(ItemVariants, "library", Get(d, "items").elems[k]))
    && FieldOk(MonographLibrary, d)
  }

  lemma {:induction false} MonographAcceptedIff(d: seq<(string, Value)>, prefix: Path)
    ensures MonographFailures(d, prefix) == [] <==> MonographOk(d)
  {
    var a := CheckFields(MonographRules, d, prefix);
    var b := CheckTaggedList(ItemVariants, "library", d, "items", prefix);
    var c := CheckField(MonographLibrary, d, prefix);
    ConcatEmpty(a + b, c);
    ConcatEmpty(a, b);
    CheckFieldsEmpty(MonographRules, d, prefix);
    TaggedListEmpty(ItemVariants, "library", d, "items", prefix);
  }

  /** A record is accepted exactly when it is a mapping whose material type
      is one of the six tags and the selected schema accepts it. The record's
      library and its items' libraries are not compared. */
  lemma {:induction false} RecordAcceptedIff(v: Value)
    ensures RecordFailures(v) == [] <==>
              v.Dict? &&
              ((Get(v.entries, "material_type") == Str("monograph_record") && MonographOk(v.entries)) ||
               (Get(v.entries, "material_type").Str? && Get(v.entries, "material_type").s in OtherMaterialTypes &&
                Accepts(OtherMaterialRules, true, v.entries)))
  {
    if v.Dict? {
      var t := Get(v.entries, "material_type");
      if !HasKey(v.entries, "material_type") {
        assert t == Null;
      } else if t == Str("monograph_record") {
        MonographAcceptedIff(v.entries, [Name(t.s)]);
        assert "monograph_record" !in OtherMaterialTypes;
      } else if t.Str? && t.s in OtherMaterialTypes {
        ValidateEmpty(OtherMaterialRules, true, v.entries, [Name(t.s)]);
      }
    }
  }

  /** The material type selects the schema; any other value is a single
      union_tag_invalid failure at the record's root. */
  lemma {:induction false} MaterialTypeDispatch(d: seq<(string, Value)>, t: string)
    requires HasKey(d, "material_type") && Get(d, "material_type") == Str(t)
    ensures t == "monograph_record" ==> RecordFailures(Dict(d)) == MonographFailures(d, [Name(t)])
    ensures t in OtherMaterialTypes ==> RecordFailures(Dict(d)) == OtherMaterialFailures(d, [Name(t)])
    ensures t !in RecordTags ==>
              |RecordFailures(Dict(d))| == 1 && RecordFailures(Dict(d))[0].kind == UnionTagInvalid &&
              RecordFailures(Dict(d))[0].loc == []
  {
    assert "monograph_record" !in OtherMaterialTypes;
  }

  /** The item's `library` value selects its schema; any other value is a
      single union_tag_invalid failure at the item's path. */
  lemma {:induction false} LibraryDispatch(item: seq<(string, Value)>, loc: Path, t: string)
    requires HasKey(item, "library") && Get(item, "library") == Str(t)
    ensures t == "RL" ==> CheckTagged(ItemVariants, "library", Dict(item), loc) ==
                           Validate(ResearchItem.rules, false, item, loc + [Name("RL")])
    ensures t == "BL" ==> CheckTagged(ItemVariants, "library", Dict(item), loc) ==
                           Validate(BranchItem.rules, false, item, loc + [Name("BL")])
    ensures t == "BPL" ==> CheckTagged(ItemVariants, "library", Dict(item), loc) ==
                            Validate(BrooklynItem.rules, false, item, loc + [Name("BPL")])
    ensures t !in Libraries ==>
              |CheckTagged(ItemVariants, "library", Dict(item), loc)| == 1 &&
              CheckTagged(ItemVariants, "library", Dict(item), loc)[0].kind == UnionTagInvalid &&
              CheckTagged(ItemVariants, "library", Dict(item), loc)[0].loc == loc
  {
    assert Tags(ItemVariants) == Libraries;
  }

  // ---------------------------------------------------------------------
  // Undeclared keys

  /** Each failure of the joined parts comes from one part. */
  lemma {:induction false} FlattenFrom<T>(parts: seq<seq<T>>, x: T)
    requires x in Flatten(parts)
    ensures exists k :: 0 <= k < |parts| && x in parts[k]
  {
    var init := parts[..|parts| - 1];
    if x !in parts[|parts| - 1] {
      FlattenFrom(init, x);
      var k :| 0 <= k < |init| && x in init[k];
      assert init[k] == parts[k];
    }
  }

  /** One item never reports an extra input: no item schema forbids
      undeclared keys. */
  lemma {:induction false} ItemNoExtra(e: Value, loc: Path)
    ensures forall f :: f in CheckTagged(ItemVariants, "library", e, loc) ==> f.kind != ExtraForbidden
  {
    if e.Dict? && HasKey(e.entries, "library") {
      var t := Get(e.entries, "library");
      if t.Str? && Select(ItemVariants, t.s).Some? {
        var variant := Select(ItemVariants, t.s).value;
        assert !variant.forbidExtra;
        CheckFieldsNoExtra(variant.rules, e.entries, loc + [Name(t.s)]);
      }
    }
  }

  /** An item list never reports an extra input. */
  lemma {:induction false} ItemsNoExtra(d: seq<(string, Value)>, prefix: Path)
    ensures forall f :: f in CheckTaggedList(ItemVariants, "library", d, "items", prefix) ==> f.kind != ExtraForbidden
  {
    var loc := prefix + [Name("items")];
    var v := Get(d, "items");
    if HasKey(d, "items") && v.List? {
      var parts := ElemFailures(ItemVariants, "library", v.elems, loc);
      forall f: RawFailure | f in Flatten(parts) ensures f.kind != ExtraForbidden {
        FlattenFrom(parts, f);
        var k :| 0 <= k < |parts| && f in parts[k];
        ItemNoExtra(v.elems[k], loc + [Index(k)]);
      }
    }
  }

  /** A monograph ignores undeclared keys: none of its failures is an extra
      input, at any depth. */
  lemma {:induction false} MonographIgnoresExtras(d: seq<(string, Value)>, prefix: Path)
    ensures forall f :: f in MonographFailures(d, prefix) ==> f.kind != ExtraForbidden
  {
    CheckFieldsNoExtra(MonographRules, d, prefix);
    ItemsNoExtra(d, prefix);
  }

  /** Items and the call number are not declared for other materials, so
      either key in the input is reported as an extra input. */
  lemma {:induction false} OtherMaterialRejectsItems(d: seq<(string, Value)>, prefix: Path, j: nat)
    requires j < |d| && d[j].0 in {"items", "bib_call_no"}
    ensures RawFailure(ExtraForbidden, prefix + [Name(d[j].0)], ExtraMsg, d[j].1, None)
            in OtherMaterialFailures(d, prefix)
  {
    forall i | 0 <= i < |OtherMaterialRules| ensures OtherMaterialRules[i].name != d[j].0 {
      if i < 7 { } else { }
    }
    assert !Declared(OtherMaterialRules, d[j].0);
    ExtraReported(OtherMaterialRules, d, prefix, j);
  }

  /** An accepted other-material record names one of the three libraries. */
  lemma {:induction false} OtherMaterialLibrary(d: seq<(string, Value)>, prefix: Path)
    requires OtherMaterialFailures(d, prefix) == []
    ensures Get(d, "library") in [Str("BPL"), Str("RL"), Str("BL")]
  {
    ValidateEmpty(OtherMaterialRules, true, d, prefix);
    assert OtherMaterialRules[13] == Req("library", OneOf(["BPL", "RL", "BL"]));
    assert FieldOk(OtherMaterialRules[13], d);
  }

  /** An accepted monograph names one of the three libraries and has a
      list of items, every one of them a mapping with a library tag. */
  lemma {:induction false} MonographLibraryAndItems(d: seq<(string, Value)>, prefix: Path)
    requires MonographFailures(d, prefix) == []
    ensures Get(d, "library") in LibraryValues
    ensures Get(d, "items").List?
    ensures forall k :: 0 <= k < |Get(d, "items").elems| ==>
              Get(d, "items").elems[k].Dict? && Get(Get(d, "items").elems[k].entries, "library") in LibraryValues
  {
    MonographAcceptedIff(d, prefix);
    assert FieldOk(MonographLibrary, d);
    forall k | 0 <= k < |Get(d, "items").elems|
      ensures Get(d, "items").elems[k].Dict? && Get(Get(d, "items").elems[k].entries, "library") in LibraryValues
    {
      ItemTagged(Get(d, "items").elems[k]);
    }
  }

  const LibraryValues: seq<Value> := [Str("RL"), Str("BL"), Str("BPL")]

  /** An item that passes its schema is a mapping tagged with a library. */
  lemma {:induction false} ItemTagged(e: Value)
    requires TaggedOk(ItemVariants, "library", e)
    ensures e.Dict? && Get(e.entries, "library") in LibraryValues
  {
    assert Tags(ItemVariants) == Libraries;
  }

  // ---------------------------------------------------------------------
  // The item schemas compared

  lemma {:induction false} ResearchUniqueAt1() ensures NameUniqueAt(ResearchItem.rules, 1) { }
  lemma {:induction false} ResearchUniqueAt2() ensures NameUniqueAt(ResearchItem.rules, 2) { }
  lemma {:induction false} ResearchUniqueAt5() ensures NameUniqueAt(ResearchItem.rules, 5) { }
  lemma {:induction false} ResearchUniqueAt7() ensures NameUniqueAt(ResearchItem.rules, 7) { }
  lemma {:induction false} ResearchUniqueAt9() ensures NameUniqueAt(ResearchItem.rules, 9) { }

  lemma {:induction false} CirculatingUniqueAt(library: string, barcode: Pattern, i: nat)
    requires i in {1, 2, 5, 7, 9}
    ensures NameUniqueAt(CirculatingItemRules(library, barcode), i)
  {
  }

  /** The same fourteen-digit barcode with the research prefix passes the
      research schema and fails both others, at the barcode's path. */
  lemma {:induction false} BarcodeDependsOnLibrary(d: seq<(string, Value)>, prefix: Path)
    requires HasKey(d, "item_barcode") && Get(d, "item_barcode") == Str("33433123456789")
    ensures QuietAt(CheckFields(ResearchItem.rules, d, prefix), prefix + [Name("item_barcode")])
    ensures !QuietAt(CheckFields(BranchItem.rules, d, prefix), prefix + [Name("item_barcode")])
    ensures !QuietAt(CheckFields(BrooklynItem.rules, d, prefix), prefix + [Name("item_barcode")])
  {
    ResearchBarcodeOnlyUnderRL();
    ResearchUniqueAt2();
    FieldSilentIff(ResearchItem.rules, d, prefix, 2);
    CirculatingBarcodeRule("BL", BarcodeBL, d, prefix);
    CirculatingBarcodeRule("BPL", BarcodeBPL, d, prefix);
  }

  /** A branch or Brooklyn barcode draws no failure at its path exactly
      when it is a string its library's pattern matches. */
  lemma {:induction false} CirculatingBarcodeRule(library: string, barcode: Pattern, d: seq<(string, Value)>, prefix: Path)
    requires HasKey(d, "item_barcode") && Get(d, "item_barcode").Str?
    ensures QuietAt(CheckFields(CirculatingItemRules(library, barcode), d, prefix), prefix + [Name("item_barcode")])
            <==> Matches(barcode, Get(d, "item_barcode").s)
  {
    CirculatingUniqueAt(library, barcode, 2);
    FieldSilentIff(CirculatingItemRules(library, barcode), d, prefix, 2);
  }

  /** A research item's call number must have the ReCAP shape; a branch or
      Brooklyn item's may be any string. */
  lemma {:induction false} CallNoRule(d: seq<(string, Value)>, prefix: Path, library: string, barcode: Pattern)
    requires HasKey(d, "item_call_no") && Get(d, "item_call_no").Str?
    ensures QuietAt(CheckFields(ResearchItem.rules, d, prefix), prefix + [Name("item_call_no")])
            <==> Matches(ReCAPCallNo, Get(d, "item_call_no").s)
    ensures QuietAt(CheckFields(CirculatingItemRules(library, barcode), d, prefix), prefix + [Name("item_call_no")])
  {
    ResearchUniqueAt1();
    FieldSilentIff(ResearchItem.rules, d, prefix, 1);
    CirculatingUniqueAt(library, barcode, 1);
    FieldSilentIff(CirculatingItemRules(library, barcode), d, prefix, 1);
  }

  /** A research item's vendor code is "EVP" or "AUXAM"; a branch or
      Brooklyn item's may be any string. */
  lemma {:induction false} VendorRule(d: seq<(string, Value)>, prefix: Path, library: string, barcode: Pattern)
    requires HasKey(d, "item_vendor_code") && Get(d, "item_vendor_code").Str?
    ensures QuietAt(CheckFields(ResearchItem.rules, d, prefix), prefix + [Name("item_vendor_code")])
            <==> Get(d, "item_vendor_code").s in Vendors
    ensures QuietAt(CheckFields(CirculatingItemRules(library, barcode), d, prefix), prefix + [Name("item_vendor_code")])
  {
    ResearchUniqueAt7();
    FieldSilentIff(ResearchItem.rules, d, prefix, 7);
    CirculatingUniqueAt(library, barcode, 7);
    FieldSilentIff(CirculatingItemRules(library, barcode), d, prefix, 7);
  }

  /** Every item schema requires item_location; the research schema also
      restricts it to its nine locations. */
  lemma {:induction false} LocationRule(d: seq<(string, Value)>, prefix: Path, library: string, barcode: Pattern)
    ensures QuietAt(CheckFields(ResearchItem.rules, d, prefix), prefix + [Name("item_location")])
            <==> HasKey(d, "item_location") && Get(d, "item_location").Str? && Get(d, "item_location").s in ItemLocations
    ensures QuietAt(CheckFields(CirculatingItemRules(library, barcode), d, prefix), prefix + [Name("item_location")])
            <==> HasKey(d, "item_location") && Get(d, "item_location").Str?
  {
    ResearchUniqueAt9();
    FieldSilentIff(ResearchItem.rules, d, prefix, 9);
    CirculatingUniqueAt(library, barcode, 9);
    FieldSilentIff(CirculatingItemRules(library, barcode), d, prefix, 9);
  }

  /** Research messages need a first character outside a..z (the rule has
      no end anchor); branch and Brooklyn messages take any string. An
      absent message passes everywhere. */
  lemma {:induction false} MessageRule(d: seq<(string, Value)>, prefix: Path, library: string, barcode: Pattern)
    ensures !HasKey(d, "item_message") ==>
              QuietAt(CheckFields(ResearchItem.rules, d, prefix), prefix + [Name("item_message")])
    ensures HasKey(d, "item_message") && Get(d, "item_message").Str? ==>
              (QuietAt(CheckFields(ResearchItem.rules, d, prefix), prefix + [Name("item_message")])
               <==> Matches(CapsMessage, Get(d, "item_message").s))
    ensures HasKey(d, "item_message") && Get(d, "item_message").Str? ==>
              QuietAt(CheckFields(CirculatingItemRules(library, barcode), d, prefix), prefix + [Name("item_message")])
  {
    ResearchUniqueAt5();
    FieldSilentIff(ResearchItem.rules, d, prefix, 5);
    CirculatingUniqueAt(library, barcode, 5);
    FieldSilentIff(CirculatingItemRules(library, barcode), d, prefix, 5);
  }
}

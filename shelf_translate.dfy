/**
 * The field catalog of the current validator, `RLMarcEncoding`: an
 * enumeration whose member names are the validator's field names and whose
 * values are the MARC tag and subfield each is reported under ("949$i"),
 * with the indicator pseudo-fields as "<tag>_ind1"/"<tag>_ind2".
 */
module ShelfTranslate {
  import opened Values

  /** The members, in declaration order. */
  datatype Field =
    | BibCallNo | BibCallNoInd1 | BibCallNoInd2 | BibVendorCode
    | Lcc | InvoiceDate | InvoicePrice | InvoiceShipping
    | InvoiceTax | InvoiceNetPrice | InvoiceNumber | InvoiceCopies
    | OrderPrice | OrderLocation | OrderFund | OrderInd1
    | OrderInd2 | ItemCallTag | ItemCallNo | ItemBarcode
    | ItemPrice | ItemMessage | Message | ItemVendorCode
    | ItemAgency | ItemLocation | ItemType | Library
    | ItemInd1 | ItemInd2 | Items

  /** Every member, in declaration order. */
  const Members: seq<Field> := [
    BibCallNo, BibCallNoInd1, BibCallNoInd2, BibVendorCode, Lcc, InvoiceDate,
    InvoicePrice, InvoiceShipping, InvoiceTax, InvoiceNetPrice, InvoiceNumber, InvoiceCopies,
    OrderPrice, OrderLocation, OrderFund, OrderInd1, OrderInd2, ItemCallTag,
    ItemCallNo, ItemBarcode, ItemPrice, ItemMessage, Message, ItemVendorCode,
    ItemAgency, ItemLocation, ItemType, Library, ItemInd1, ItemInd2,
    Items
  ]

  /** A member's position in the declaration. */
  function Ordinal(f: Field): (i: nat)
    ensures i < |Members| && Members[i] == f
  {
    match f
    case BibCallNo => 0
    case BibCallNoInd1 => 1
    case BibCallNoInd2 => 2
    case BibVendorCode => 3
    case Lcc => 4
    case InvoiceDate => 5
    case InvoicePrice => 6
    case InvoiceShipping => 7
    case InvoiceTax => 8
    case InvoiceNetPrice => 9
    case InvoiceNumber => 10
    case InvoiceCopies => 11
    case OrderPrice => 12
    case OrderLocation => 13
    case OrderFund => 14
    case OrderInd1 => 15
    case OrderInd2 => 16
    case ItemCallTag => 17
    case ItemCallNo => 18
    case ItemBarcode => 19
    case ItemPrice => 20
    case ItemMessage => 21
    case Message => 22
    case ItemVendorCode => 23
    case ItemAgency => 24
    case ItemLocation => 25
    case ItemType => 26
    case Library => 27
    case ItemInd1 => 28
    case ItemInd2 => 29
    case Items => 30
  }

  /** A member's `.name`. */
  function FieldName(f: Field): string
  {
    match f
    case BibCallNo => "bib_call_no"
    case BibCallNoInd1 => "bib_call_no_ind1"
    case BibCallNoInd2 => "bib_call_no_ind2"
    case BibVendorCode => "bib_vendor_code"
    case Lcc => "lcc"
    case InvoiceDate => "invoice_date"
    case InvoicePrice => "invoice_price"
    case InvoiceShipping => "invoice_shipping"
    case InvoiceTax => "invoice_tax"
    case InvoiceNetPrice => "invoice_net_price"
    case InvoiceNumber => "invoice_number"
    case InvoiceCopies => "invoice_copies"
    case OrderPrice => "order_price"
    case OrderLocation => "order_location"
    case OrderFund => "order_fund"
    case OrderInd1 => "order_ind1"
    case OrderInd2 => "order_ind2"
    case ItemCallTag => "item_call_tag"
    case ItemCallNo => "item_call_no"
    case ItemBarcode => "item_barcode"
    case ItemPrice => "item_price"
    case ItemMessage => "item_message"
    case Message => "message"
    case ItemVendorCode => "item_vendor_code"
    case ItemAgency => "item_agency"
    case ItemLocation => "item_location"
    case ItemType => "item_type"
    case Library => "library"
    case ItemInd1 => "item_ind1"
    case ItemInd2 => "item_ind2"
    case Items => "items"
  }

  /** A member's `.value`. */
  function FieldTag(f: Field): string
  {
    match f
    case BibCallNo => "852"
    case BibCallNoInd1 => "852_ind1"
    case BibCallNoInd2 => "852_ind2"
    case BibVendorCode => "901$a"
    case Lcc => "050$a"
    case InvoiceDate => "980$a"
    case InvoicePrice => "980$b"
    case InvoiceShipping => "980$c"
    case InvoiceTax => "980$d"
    case InvoiceNetPrice => "980$e"
    case InvoiceNumber => "980$f"
    case InvoiceCopies => "980$g"
    case OrderPrice => "960$s"
    case OrderLocation => "960$t"
    case OrderFund => "960$u"
    case OrderInd1 => "960_ind1"
    case OrderInd2 => "960_ind2"
    case ItemCallTag => "949$z"
    case ItemCallNo => "949$a"
    case ItemBarcode => "949$i"
    case ItemPrice => "949$p"
    case ItemMessage => "949$u"
    case Message => "949$m"
    case ItemVendorCode => "949$v"
    case ItemAgency => "949$h"
    case ItemLocation => "949$l"
    case ItemType => "949$t"
    case Library => "910$a"
    case ItemInd1 => "949_ind1"
    case ItemInd2 => "949_ind2"
    case Items => "949"
  }

  /** `RLMarcEncoding[name]`, or None where Python raises KeyError. */
  function Member(name: string): Option<Field>
  {
    match name
    case "bib_call_no" => Some(BibCallNo)
    case "bib_call_no_ind1" => Some(BibCallNoInd1)
    case "bib_call_no_ind2" => Some(BibCallNoInd2)
    case "bib_vendor_code" => Some(BibVendorCode)
    case "lcc" => Some(Lcc)
    case "invoice_date" => Some(InvoiceDate)
    case "invoice_price" => Some(InvoicePrice)
    case "invoice_shipping" => Some(InvoiceShipping)
    case "invoice_tax" => Some(InvoiceTax)
    case "invoice_net_price" => Some(InvoiceNetPrice)
    case "invoice_number" => Some(InvoiceNumber)
    case "invoice_copies" => Some(InvoiceCopies)
    case "order_price" => Some(OrderPrice)
    case "order_location" => Some(OrderLocation)
    case "order_fund" => Some(OrderFund)
    case "order_ind1" => Some(OrderInd1)
    case "order_ind2" => Some(OrderInd2)
    case "item_call_tag" => Some(ItemCallTag)
    case "item_call_no" => Some(ItemCallNo)
    case "item_barcode" => Some(ItemBarcode)
    case "item_price" => Some(ItemPrice)
    case "item_message" => Some(ItemMessage)
    case "message" => Some(Message)
    case "item_vendor_code" => Some(ItemVendorCode)
    case "item_agency" => Some(ItemAgency)
    case "item_location" => Some(ItemLocation)
    case "item_type" => Some(ItemType)
    case "library" => Some(Library)
    case "item_ind1" => Some(ItemInd1)
    case "item_ind2" => Some(ItemInd2)
    case "items" => Some(Items)
    case _ => None
  }

  /** `RLMarcEncoding(tag)`: the member whose value is `tag`. */
  function WithTag(tag: string): Option<Field>
  {
    match tag
    case "852" => Some(BibCallNo)
    case "852_ind1" => Some(BibCallNoInd1)
    case "852_ind2" => Some(BibCallNoInd2)
    case "901$a" => Some(BibVendorCode)
    case "050$a" => Some(Lcc)
    case "980$a" => Some(InvoiceDate)
    case "980$b" => Some(InvoicePrice)
    case "980$c" => Some(InvoiceShipping)
    case "980$d" => Some(InvoiceTax)
    case "980$e" => Some(InvoiceNetPrice)
    case "980$f" => Some(InvoiceNumber)
    case "980$g" => Some(InvoiceCopies)
    case "960$s" => Some(OrderPrice)
    case "960$t" => Some(OrderLocation)
    case "960$u" => Some(OrderFund)
    case "960_ind1" => Some(OrderInd1)
    case "960_ind2" => Some(OrderInd2)
    case "949$z" => Some(ItemCallTag)
    case "949$a" => Some(ItemCallNo)
    case "949$i" => Some(ItemBarcode)
    case "949$p" => Some(ItemPrice)
    case "949$u" => Some(ItemMessage)
    case "949$m" => Some(Message)
    case "949$v" => Some(ItemVendorCode)
    case "949$h" => Some(ItemAgency)
    case "949$l" => Some(ItemLocation)
    case "949$t" => Some(ItemType)
    case "910$a" => Some(Library)
    case "949_ind1" => Some(ItemInd1)
    case "949_ind2" => Some(ItemInd2)
    case "949" => Some(Items)
    case _ => None
  }

  /** `RLMarcEncoding[str(e)].value` */
  function Encode(e: PathElem): (r: Result<string>)
    ensures r.Ok? <==> Member(ElemText(e)).Some?
    ensures r.Ok? ==> r.value == FieldTag(Member(ElemText(e)).value)
    ensures r.Raised? ==> r.exception == KeyError
  {
    match Member(ElemText(e))
    case Some(f) => Ok(FieldTag(f))
    case None => Raised(KeyError)
  }

  // ---------------------------------------------------------------------
  // Facts about the catalog

  /** The catalog has 31 members, each listed once. */
  lemma {:induction false} MembersComplete(f: Field)
    ensures |Members| == 31 && f in Members
  {
  }

  /** Looking a member's tag up finds the member: no two members share a
      tag, so a reported tag names exactly one field. */
  lemma {:induction false} WithTagOfTag(f: Field)
    ensures WithTag(FieldTag(f)) == Some(f)
  {
    if Ordinal(f) < 10 { WithTagLow(f); }
    else if Ordinal(f) < 20 { WithTagMid(f); }
    else { WithTagHigh(f); }
  }

  lemma {:induction false} WithTagLow(f: Field)
    requires Ordinal(f) < 10
    ensures WithTag(FieldTag(f)) == Some(f)
  {
  }

  lemma {:induction false} WithTagMid(f: Field)
    requires 10 <= Ordinal(f) < 20
    ensures WithTag(FieldTag(f)) == Some(f)
  {
  }

  lemma {:induction false} WithTagHigh(f: Field)
    requires 20 <= Ordinal(f)
    ensures WithTag(FieldTag(f)) == Some(f)
  {
  }

  /** Distinct members carry distinct tags. */
  lemma {:induction false} TagInjective(f: Field, g: Field)
    requires FieldTag(f) == FieldTag(g)
    ensures f == g
  {
    WithTagOfTag(f);
    WithTagOfTag(g);
  }

  /** Two path elements reported under one tag name the same member. */
  lemma {:induction false} EncodeInjective(a: PathElem, b: PathElem)
    requires Encode(a).Ok? && Encode(a) == Encode(b)
    ensures Member(ElemText(a)) == Member(ElemText(b))
  {
    TagInjective(Member(ElemText(a)).value, Member(ElemText(b)).value);
  }

  /** No member name starts with a digit. */
  lemma {:induction false} DigitFirstAbsent(s: string)
    requires |s| > 0 && '0' <= s[0] <= '9'
    ensures Member(s) == None
  {
  }

  /** List indices are never field names: `str()` of one starts with a
      digit, so the lookup raises KeyError. */
  lemma {:induction false} IndexRaises(n: nat)
    ensures Encode(Index(n)) == Raised(KeyError)
  {
    DigitFirstAbsent(NatToString(n));
  }

  /** The record discriminator is not a catalog field. */
  lemma {:induction false} DiscriminatorRaises()
    ensures Encode(Name("material_type")) == Raised(KeyError)
  {
  }

  /** Item fields live in tag 949. */
  lemma {:induction false} ItemTags()
    ensures Encode(Name("item_barcode")) == Ok("949$i")
    ensures Encode(Name("item_price")) == Ok("949$p")
    ensures Encode(Name("items")) == Ok("949")
  {
  }

  /** The item location and item type, the two item fields of the
      item/order combination check. */
  lemma {:induction false} ItemComboTags()
    ensures Encode(Name("item_location")) == Ok("949$l")
    ensures Encode(Name("item_type")) == Ok("949$t")
  {
  }

  const InvoiceFields: seq<string> := ["invoice_date", "invoice_price", "invoice_shipping", "invoice_tax",
                                       "invoice_net_price", "invoice_number", "invoice_copies"]

  /** Invoice fields are subfields a..g of tag 980, in declaration order. */
  lemma {:induction false} InvoiceTagsInOrder()
    ensures forall k :: 0 <= k < 7 ==>
              FieldName(Members[5 + k]) == InvoiceFields[k] &&
              FieldTag(Members[5 + k]) == "980$" + [('a' as int + k) as char]
  {
    forall k | 0 <= k < 7
      ensures FieldName(Members[5 + k]) == InvoiceFields[k] &&
              FieldTag(Members[5 + k]) == "980$" + [('a' as int + k) as char]
    {
      if k < 4 { } else { }
    }
  }

  /** Order fields are subfields s, t, u of tag 960. */
  lemma {:induction false} OrderTags()
    ensures Encode(Name("order_price")) == Ok("960$s")
    ensures Encode(Name("order_location")) == Ok("960$t")
    ensures Encode(Name("order_fund")) == Ok("960$u")
  {
  }

  /** The call number is the bare tag 852; its indicators are "852_ind1" and
      "852_ind2". */
  lemma {:induction false} CallNumberTags()
    ensures Encode(Name("bib_call_no")) == Ok("852")
    ensures Encode(Name("bib_call_no_ind1")) == Ok("852_ind1")
    ensures Encode(Name("bib_call_no_ind2")) == Ok("852_ind2")
  {
  }

  /** Indicators are "<tag>_ind1" and "<tag>_ind2"; the library is "910$a". */
  lemma {:induction false} IndicatorAndLibraryTags()
    ensures Encode(Name("order_ind1")) == Ok("960_ind1")
    ensures Encode(Name("item_ind2")) == Ok("949_ind2")
    ensures Encode(Name("library")) == Ok("910$a")
  {
  }
}

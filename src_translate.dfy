/**
 * The field catalog of the earlier validator (`src/validate`),
 * `RLMarcEncoding`: field name to MARC tag. Two names share the value
 * "960$s"; in a Python enumeration the second, `order_fund`, is then an
 * alias of the first: it is not a member of its own, and looking it up
 * yields the member `order_price`.
 */
module SrcTranslate {
  import opened Values

  /** The members, in declaration order (the alias is not one). */
  datatype Field =
    | BibCallNo | BibVendorCode | Lcc | InvoiceDate
    | InvoicePrice | InvoiceShipping | InvoiceTax | InvoiceNetPrice
    | InvoiceNumber | InvoiceCopies | OrderPrice | OrderLocation
    | ItemCallTag | ItemCallNo | ItemBarcode | ItemPrice
    | ItemVendorCode | ItemAgency | ItemLocation | ItemType
    | Library | Items

  /** Every member, in declaration order. */
  const Members: seq<Field> := [
    BibCallNo, BibVendorCode, Lcc, InvoiceDate, InvoicePrice, InvoiceShipping,
    InvoiceTax, InvoiceNetPrice, InvoiceNumber, InvoiceCopies, OrderPrice, OrderLocation,
    ItemCallTag, ItemCallNo, ItemBarcode, ItemPrice, ItemVendorCode, ItemAgency,
    ItemLocation, ItemType, Library, Items
  ]

  /** A member's position in the declaration. */
  function Ordinal(f: Field): (i: nat)
    ensures i < |Members| && Members[i] == f
  {
    match f
    case BibCallNo => 0
    case BibVendorCode => 1
    case Lcc => 2
    case InvoiceDate => 3
    case InvoicePrice => 4
    case InvoiceShipping => 5
    case InvoiceTax => 6
    case InvoiceNetPrice => 7
    case InvoiceNumber => 8
    case InvoiceCopies => 9
    case OrderPrice => 10
    case OrderLocation => 11
    case ItemCallTag => 12
    case ItemCallNo => 13
    case ItemBarcode => 14
    case ItemPrice => 15
    case ItemVendorCode => 16
    case ItemAgency => 17
    case ItemLocation => 18
    case ItemType => 19
    case Library => 20
    case Items => 21
  }

  /** A member's `.name`. */
  function FieldName(f: Field): string
  {
    match f
    case BibCallNo => "bib_call_no"
    case BibVendorCode => "bib_vendor_code"
    case Lcc => "lcc"
    case InvoiceDate => "invoice_date"
    case InvoicePrice => "invoice_price"
    case InvoiceShipping => "invoice_shipping"
    case InvoiceTax => "invoice_tax"
    case InvoiceNetPrice => "invoice_net_price"
    case InvoiceNumber => "invoice_number"
    case InvoiceCopies => "invoice_copies"
    case OrderPrice => "order_price"
    case OrderLocation => "order_location"
    case ItemCallTag => "item_call_tag"
    case ItemCallNo => "item_call_no"
    case ItemBarcode => "item_barcode"
    case ItemPrice => "item_price"
    case ItemVendorCode => "item_vendor_code"
    case ItemAgency => "item_agency"
    case ItemLocation => "item_location"
    case ItemType => "item_type"
    case Library => "library"
    case Items => "items"
  }

  /** A member's `.value`. */
  function FieldTag(f: Field): string
  {
    match f
    case BibCallNo => "852$h"
    case BibVendorCode => "901$a"
    case Lcc => "050$a"
    case InvoiceDate => "980$a"
    case InvoicePrice => "980$b"
    case InvoiceShipping => "980$c"
    case InvoiceTax => "980$d"
    case InvoiceNetPrice => "980$e"
    case InvoiceNumber => "980$f"
    case InvoiceCopies => "980$g"
    case OrderPrice => "960$s"
    case OrderLocation => "960$t"
    case ItemCallTag => "949z"
    case ItemCallNo => "949$a"
    case ItemBarcode => "949$i"
    case ItemPrice => "949$p"
    case ItemVendorCode => "949$v"
    case ItemAgency => "949$h"
    case ItemLocation => "949$l"
    case ItemType => "949$t"
    case Library => "910$a"
    case Items => "949"
  }

  /** `RLMarcEncoding[name]`, or None where Python raises KeyError; the
      alias finds the member it aliases. */
  function Member(name: string): Option<Field>
  {
    match name
    case "bib_call_no" => Some(BibCallNo)
    case "bib_vendor_code" => Some(BibVendorCode)
    case "lcc" => Some(Lcc)
    case "invoice_date" => Some(InvoiceDate)
    case "invoice_price" => Some(InvoicePrice)
    case "invoice_shipping" => Some(InvoiceShipping)
    case "invoice_tax" => Some(InvoiceTax)
    case "invoice_net_price" => Some(InvoiceNetPrice)
    case "invoice_number" => Some(InvoiceNumber)
    case "invoice_copies" => Some(InvoiceCopies)
    case "order_price" => Some(OrderPrice)
    case "order_location" => Some(OrderLocation)
    case "order_fund" => Some(OrderPrice)
    case "item_call_tag" => Some(ItemCallTag)
    case "item_call_no" => Some(ItemCallNo)
    case "item_barcode" => Some(ItemBarcode)
    case "item_price" => Some(ItemPrice)
    case "item_vendor_code" => Some(ItemVendorCode)
    case "item_agency" => Some(ItemAgency)
    case "item_location" => Some(ItemLocation)
    case "item_type" => Some(ItemType)
    case "library" => Some(Library)
    case "items" => Some(Items)
    case _ => None
  }

  /** `RLMarcEncoding(tag)`: the member whose value is `tag`. */
  function WithTag(tag: string): Option<Field>
  {
    match tag
    case "852$h" => Some(BibCallNo)
    case "901$a" => Some(BibVendorCode)
    case "050$a" => Some(Lcc)
    case "980$a" => Some(InvoiceDate)
    case "980$b" => Some(InvoicePrice)
    case "980$c" => Some(InvoiceShipping)
    case "980$d" => Some(InvoiceTax)
    case "980$e" => Some(InvoiceNetPrice)
    case "980$f" => Some(InvoiceNumber)
    case "980$g" => Some(InvoiceCopies)
    case "960$s" => Some(OrderPrice)
    case "960$t" => Some(OrderLocation)
    case "949z" => Some(ItemCallTag)
    case "949$a" => Some(ItemCallNo)
    case "949$i" => Some(ItemBarcode)
    case "949$p" => Some(ItemPrice)
    case "949$v" => Some(ItemVendorCode)
    case "949$h" => Some(ItemAgency)
    case "949$l" => Some(ItemLocation)
    case "949$t" => Some(ItemType)
    case "910$a" => Some(Library)
    case "949" => Some(Items)
    case _ => None
  }

  /** `RLMarcEncoding[name].value` */
  function Encode(name: string): (r: Result<string>)
    ensures r.Ok? <==> Member(name).Some?
    ensures r.Ok? ==> r.value == FieldTag(Member(name).value)
    ensures r.Raised? ==> r.exception == KeyError
  {
    match Member(name)
    case Some(f) => Ok(FieldTag(f))
    case None => Raised(KeyError)
  }

  // ---------------------------------------------------------------------
  // Facts about the catalog

  /** 23 names are declared, 22 of them members. */
  lemma {:induction false} MembersComplete(f: Field)
    ensures |Members| == 22 && f in Members
  {
  }

  /** Looking a member's tag up finds the member: the members carry
      distinct tags. */
  lemma {:induction false} WithTagOfTag(f: Field)
    ensures WithTag(FieldTag(f)) == Some(f)
  {
    if Ordinal(f) < 11 { WithTagLow(f); } else { WithTagHigh(f); }
  }

  lemma {:induction false} WithTagLow(f: Field)
    requires Ordinal(f) < 11
    ensures WithTag(FieldTag(f)) == Some(f)
  {
  }

  lemma {:induction false} WithTagHigh(f: Field)
    requires 11 <= Ordinal(f)
    ensures WithTag(FieldTag(f)) == Some(f)
  {
  }

  /** Distinct members carry distinct tags. */
  lemma {:induction false} TagInjective(f: Field, g: Field)
    requires FieldTag(f) == FieldTag(g)
    ensures f == g
  {
    WithTagOfTag(f);
    WithTagOfTag(g);
  }

  /** Order fund is an alias of order price: the two names find the same
      member, so a report cannot tell them apart. */
  lemma {:induction false} FundIsAlias()
    ensures Member("order_fund") == Member("order_price") == Some(OrderPrice)
    ensures FieldName(OrderPrice) == "order_price"
    ensures Encode("order_fund") == Encode("order_price") == Ok("960$s")
  {
  }

  /** Order location is "960$t". */
  lemma {:induction false} OrderLocationTag()
    ensures Encode("order_location") == Ok("960$t")
  {
  }

  /** The call number carries subfield h here, unlike the later catalog's
      bare "852"; the call tag lacks the "$" separator. */
  lemma {:induction false} CallNumberTags()
    ensures Encode("bib_call_no") == Ok("852$h")
    ensures Encode("item_call_tag") == Ok("949z")
    ensures Encode("item_call_no") == Ok("949$a")
  {
  }

  /** Barcode, location and type are subfields of the item tag 949. */
  lemma {:induction false} ItemTags()
    ensures Encode("item_barcode") == Ok("949$i")
    ensures Encode("item_location") == Ok("949$l")
    ensures Encode("item_type") == Ok("949$t")
  {
  }

  /** Every item field but the call tag is "949$<code>". */
  lemma {:induction false} ItemTagsShape(f: Field)
    requires 12 <= Ordinal(f) < 20
    ensures FieldName(f)[..5] == "item_"
    ensures if f == ItemCallTag then FieldTag(f) == "949z"
            else |FieldTag(f)| == 5 && FieldTag(f)[..4] == "949$"
  {
  }

  /** Invoice fields are subfields a..g of tag 980, in declaration order. */
  lemma {:induction false} InvoiceTagsInOrder(k: nat)
    requires k < 7
    ensures FieldName(Members[3 + k])[..8] == "invoice_"
    ensures FieldTag(Members[3 + k]) == "980$" + [('a' as int + k) as char]
  {
  }

  /** The library is "910$a" and the item list "949". */
  lemma {:induction false} LibraryAndItemsTags()
    ensures Encode("library") == Ok("910$a") && Encode("items") == Ok("949")
  {
  }
}

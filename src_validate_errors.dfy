/**
 * The message rewriter of the second iteration (src/validate/errors.py).
 *
 * `convert_error_messages` loops over the raw failures, but every branch of
 * its `match` returns, so only the first failure is ever looked at: it is
 * copied into a fresh error whose loc is the last path element, and a
 * business message is attached when (type, loc, ctx) has one of the listed
 * shapes. No failure at all gives None.
 *
 * As written, the copy reads the failure's "ctx" unconditionally, so every
 * failure without one (missing, extra_forbidden, the combination check)
 * raises KeyError before the match is reached, and the item-location branch
 * returns the popped ctx instead of the error. `ConvertAsWritten` and
 * `ConvertErrorMessagesAsWritten` keep both; `Convert` is the evidently
 * intended behaviour, and `ConvertErrorMessages` uses it.
 */
module SrcValidateErrors {
  import opened Values
  import opened Patterns

  /** What one failure is turned into. */
  datatype Converted =
    | Rewritten(kind: ErrorType, loc: PathElem, input: Value, ctx: Option<Ctx>, msg: string)
    | CtxOnly(popped: Ctx)
    | Unchanged(failure: RawFailure)

  const BarcodeMsg := "Invalid barcode. Barcodes should be 14 digits long and begin with: '33433' for NYPL Research Libraries, '33333' for NYPL Branch Libraries, or '34444' for BPL."
  const ReCAPMsg := "ReCAP call numbers should contain a 2-digit year and match the pattern 'ReCAP YY-999999'."
  const PriceMsgSuffix := " prices should not include decimal points."
  const DateMsg := "Invoice dates should match the pattern YYMMDD."
  const ItemPriceMsg := "Item prices must include decimal points."
  const CapsMsg := "Messages in item records should be all caps."
  const VendorMsg := "Invalid vendor code."
  const IdentifierMsg := "Invalid research libraries identifier."
  const CallTagMsg := "Invalid item call tag. Should be '8528'."
  const ItemLocationMsg := "Item location does not match a valid location."
  const OrderLocationMsg := "Order location does not match a valid location."
  const ExtraItemMsg := "This bib record should not contain an item record. Check the material type."

  const VendorExpected := "'AUXAM' or 'EVP'"
  const ItemLocationsExpected := "'rcmb2', 'rcmf2', 'rcmg2', 'rc2ma', 'rcmp2', 'rcph2', 'rcpm2', 'rcpt2' or 'rc2cf'"
  const OrderLocationsExpected := "'MAB', 'MAF', 'MAG', 'MAL', 'MAP', 'MAS', 'PAD', 'PAH', 'PAM', 'PAT' or 'SC'"

  // ---------------------------------------------------------------------
  // Path and ctx shapes the match statement tests

  predicate At1(loc: Path, a: string)
  {
    |loc| == 1 && loc[0] == Name(a)
  }

  predicate At2(loc: Path, a: string, b: string)
  {
    |loc| == 2 && loc[0] == Name(a) && loc[1] == Name(b)
  }

  /** `(a, _)`: two elements, the first one given. */
  predicate AtPair(loc: Path, a: string)
  {
    |loc| == 2 && loc[0] == Name(a)
  }

  predicate At3(loc: Path, a: string, b: string, c: string)
  {
    |loc| == 3 && loc[0] == Name(a) && loc[1] == Name(b) && loc[2] == Name(c)
  }

  /** The mapping pattern `{key: value}`: the key is there with that value;
      other keys are allowed. */
  predicate CtxHas(ctx: Ctx, key: string, value: string)
  {
    key in ctx && ctx[key] == value
  }

  predicate PatternIs(kind: ErrorType, ctx: Ctx, pattern: string)
  {
    kind == StringPatternMismatch && CtxHas(ctx, "pattern", pattern)
  }

  predicate ExpectedIs(kind: ErrorType, ctx: Ctx, expected: string)
  {
    kind == LiteralError && CtxHas(ctx, "expected", expected)
  }

  /** The new error every branch builds: type, input and ctx copied, loc
      the last path element, and the branch's message. */
  function Copy(f: RawFailure, ctx: Option<Ctx>, msg: string): Converted
    requires |f.loc| > 0
  {
    Rewritten(f.kind, f.loc[|f.loc| - 1], f.input, ctx, msg)
  }

  /** `error['loc'][0].title()` followed by the price message. */
  function PriceMessage(loc: Path): string
    requires |loc| > 0
  {
    Title(ElemText(loc[0])) + PriceMsgSuffix
  }

  /** The message a ctx-carrying failure gets, tried in the match's order;
      None for the fall-through case. `itemLocation` is the item-location
      branch's result, which is where the two versions differ. */
  function Branch(f: RawFailure, ctx: Ctx, itemLocation: Converted): (r: Option<Converted>)
    requires |f.loc| > 0
  {
    var k := f.kind;
    var loc := f.loc;
    if PatternIs(k, ctx, BarcodeAny.text) && At3(loc, "item", "monograph_record", "item_barcode") then
      Some(Copy(f, Some(ctx), BarcodeMsg))
    else if PatternIs(k, ctx, ReCAPCallNo.text) && At3(loc, "item", "monograph_record", "item_call_no") then
      Some(Rewritten(k, Name("item_call_no"), f.input, Some(ctx), ReCAPMsg))
    else if PatternIs(k, ctx, ReCAPCallNo.text) && At1(loc, "bib_call_no") then
      Some(Rewritten(k, Name("bib_call_no"), f.input, Some(ctx), ReCAPMsg))
    else if (PatternIs(k, ctx, DigitsMin3.text) || PatternIs(k, ctx, DigitsMin1.text))
            && (At3(loc, "order", "monograph_record", "order_price") || AtPair(loc, "invoice")) then
      Some(Copy(f, Some(ctx), PriceMessage(loc)))
    else if PatternIs(k, ctx, SixDigits.text) && At3(loc, "invoice", "monograph_record", "invoice_date") then
      Some(Copy(f, Some(ctx), DateMsg))
    else if PatternIs(k, ctx, ItemPrice.text) && AtPair(loc, "item") then
      Some(Copy(f, Some(ctx), ItemPriceMsg))
    else if PatternIs(k, ctx, CapsMessage.text) && AtPair(loc, "item") then
      Some(Copy(f, Some(ctx), CapsMsg))
    else if ExpectedIs(k, ctx, VendorExpected) then
      Some(Copy(f, Some(ctx), VendorMsg))
    else if ExpectedIs(k, ctx, "'RL'") && At1(loc, "rl_identifier") then
      Some(Copy(f, Some(ctx), IdentifierMsg))
    else if ExpectedIs(k, ctx, "'8528'") && At3(loc, "item", "monograph_record", "item_call_tag") then
      Some(Copy(f, Some(ctx), CallTagMsg))
    else if ExpectedIs(k, ctx, ItemLocationsExpected) && At3(loc, "item", "monograph_record", "item_location") then
      Some(itemLocation)
    else if ExpectedIs(k, ctx, OrderLocationsExpected) && At2(loc, "order", "order_location") then
      Some(Copy(f, Some(ctx), OrderLocationMsg))
    else if k == ExtraForbidden then
      Some(Copy(f, Some(ctx), ExtraItemMsg))
    else None
  }

  /** One failure, as the code does it: the last path element is read
      first (IndexError on an empty path), then "ctx" (KeyError when the
      failure has none); the item-location branch returns the ctx popped
      from the new error. */
  function ConvertAsWritten(f: RawFailure): (r: Result<Converted>)
    ensures r == Raised(IndexError) <==> f.loc == []
    ensures r == Raised(KeyError) <==> f.loc != [] && f.ctx.None?
  {
    if f.loc == [] then Raised(IndexError)
    else if f.ctx.None? then Raised(KeyError)
    else
      match Branch(f, f.ctx.value, CtxOnly(f.ctx.value))
      case Some(c) => Ok(c)
      case None => Ok(Unchanged(f))
  }

  /** One failure, as evidently intended: a failure without ctx is matched
      with no ctx (only the branch that ignores ctx can apply), and the
      item-location branch returns the error with its ctx removed. */
  function Convert(f: RawFailure): (r: Result<Converted>)
    ensures r.Raised? <==> f.loc == []
  {
    if f.loc == [] then Raised(IndexError)
    else if f.ctx.None? then
      if f.kind == ExtraForbidden then Ok(Copy(f, None, ExtraItemMsg)) else Ok(Unchanged(f))
    else
      var ctx := f.ctx.value;
      match Branch(f, ctx, Copy(f, None, ItemLocationMsg))
      case Some(c) => Ok(c)
      case None => Ok(Unchanged(f))
  }

  /** `convert_error_messages`, with the corrected conversion: the first
      failure converted, None when there is none. Only an empty path on the
      first failure raises. */
  function ConvertErrorMessages(fs: seq<RawFailure>): (r: Result<Option<Converted>>)
    ensures r == Ok(None) <==> fs == []
    ensures fs != [] ==> (r.Raised? <==> fs[0].loc == [])
  {
    if fs == [] then Ok(None)
    else
      match Convert(fs[0])
      case Ok(c) => Ok(Some(c))
      case Raised(x) => Raised(x)
  }

  /** `convert_error_messages` as written: the first failure converted by
      the code as it stands. Besides an empty path, a first failure
      without ctx raises KeyError, and a first item-location failure yields
      its popped ctx. */
  function ConvertErrorMessagesAsWritten(fs: seq<RawFailure>): (r: Result<Option<Converted>>)
    ensures r == Ok(None) <==> fs == []
    ensures fs != [] ==> (r == Raised(IndexError) <==> fs[0].loc == [])
    ensures fs != [] ==> (r == Raised(KeyError) <==> fs[0].loc != [] && fs[0].ctx.None?)
    ensures fs != [] && r.Ok? ==> r.value.Some? && fs[0].ctx.Some?
  {
    if fs == [] then Ok(None)
    else
      match ConvertAsWritten(fs[0])
      case Ok(c) => Ok(Some(c))
      case Raised(x) => Raised(x)
  }

  // ---------------------------------------------------------------------
  // Properties

  /** The corrected and the as-written loop agree whenever the first
      failure carries a ctx and is not an item-location failure; otherwise
      the code as written raises or returns the ctx. */
  lemma {:induction false} MessagesCorrectionAgrees(fs: seq<RawFailure>)
    requires fs != [] && fs[0].ctx.Some?
    requires !(ExpectedIs(fs[0].kind, fs[0].ctx.value, ItemLocationsExpected)
               && At3(fs[0].loc, "item", "monograph_record", "item_location"))
    ensures ConvertErrorMessages(fs) == ConvertErrorMessagesAsWritten(fs)
  {
    CorrectionAgrees(fs[0]);
  }

  /** As written, a report whose first failure has no ctx (any missing or
      extra failure, or the combination failure, which comes first) raises
      KeyError; corrected, it converts. */
  lemma {:induction false} FirstWithoutCtxRaises(fs: seq<RawFailure>)
    requires fs != [] && fs[0].loc != [] && fs[0].ctx.None?
    ensures ConvertErrorMessagesAsWritten(fs) == Raised(KeyError)
    ensures ConvertErrorMessages(fs).Ok?
  {
  }

  /** Only the first failure is looked at. */
  lemma {:induction false} OnlyFirstConverted(fs: seq<RawFailure>, gs: seq<RawFailure>)
    requires fs != [] && gs != [] && fs[0] == gs[0]
    ensures ConvertErrorMessages(fs) == ConvertErrorMessages(gs)
  {
  }

  /** A rewritten error keeps the failure's type, input and ctx, and its loc
      is the last path element (the two call-number branches set the same
      name explicitly). */
  lemma {:induction false} RewrittenKeepsFailure(f: RawFailure)
    requires ConvertAsWritten(f).Ok? && ConvertAsWritten(f).value.Rewritten?
    ensures var c := ConvertAsWritten(f).value;
            && c.kind == f.kind && c.input == f.input && c.ctx == f.ctx
            && |f.loc| > 0 && c.loc == f.loc[|f.loc| - 1]
  {
  }

  /** A failure left unmatched comes back unchanged. */
  lemma {:induction false} UnmatchedUnchanged(f: RawFailure)
    requires f.loc != [] && f.ctx.Some? && Branch(f, f.ctx.value, CtxOnly(f.ctx.value)).None?
    ensures ConvertAsWritten(f) == Ok(Unchanged(f))
  {
  }

  /** The combined barcode pattern at the monograph item's barcode. */
  lemma {:induction false} BarcodeMessage(f: RawFailure)
    requires f.kind == StringPatternMismatch && f.ctx.Some? && CtxHas(f.ctx.value, "pattern", BarcodeAny.text)
    requires At3(f.loc, "item", "monograph_record", "item_barcode")
    ensures ConvertAsWritten(f) == Ok(Rewritten(f.kind, Name("item_barcode"), f.input, f.ctx, BarcodeMsg))
  {
  }

  /** The ReCAP pattern at the item's or the bib's call number. */
  lemma {:induction false} ReCAPMessage(f: RawFailure, field: string)
    requires f.kind == StringPatternMismatch && f.ctx.Some? && CtxHas(f.ctx.value, "pattern", ReCAPCallNo.text)
    requires (field == "item_call_no" && At3(f.loc, "item", "monograph_record", "item_call_no"))
          || (field == "bib_call_no" && At1(f.loc, "bib_call_no"))
    ensures ConvertAsWritten(f) == Ok(Rewritten(f.kind, Name(field), f.input, f.ctx, ReCAPMsg))
  {
    assert !(PatternIs(f.kind, f.ctx.value, BarcodeAny.text) && At3(f.loc, "item", "monograph_record", "item_barcode"));
  }

  /** A digit-only price pattern on an invoice field names the invoice. */
  lemma {:induction false} InvoicePriceMessage(f: RawFailure)
    requires f.kind == StringPatternMismatch && f.ctx.Some? && CtxHas(f.ctx.value, "pattern", DigitsMin1.text)
    requires AtPair(f.loc, "invoice")
    ensures ConvertAsWritten(f) == Ok(Rewritten(f.kind, f.loc[1], f.input, f.ctx, "Invoice" + PriceMsgSuffix))
  {
    InvoiceTitle();
    assert PriceMessage(f.loc) == "Invoice" + PriceMsgSuffix;
  }

  lemma {:induction false} InvoiceTitle()
    ensures Title("invoice") == "Invoice"
  {
    assert Title("invoice")[0] == 'I';
  }

  /** The vendor literal gets its message at any path. */
  lemma {:induction false} VendorMessage(f: RawFailure)
    requires f.loc != [] && f.kind == LiteralError && f.ctx.Some? && CtxHas(f.ctx.value, "expected", VendorExpected)
    ensures ConvertAsWritten(f) == Ok(Rewritten(f.kind, f.loc[|f.loc| - 1], f.input, f.ctx, VendorMsg))
  {
  }

  /** Every failure without ctx raises KeyError as written (given a
      non-empty path), whatever its type: the extra_forbidden branch is
      never reached by the failures the schemas produce. */
  lemma {:induction false} NoCtxRaises(f: RawFailure)
    requires f.loc != [] && f.ctx.None?
    ensures ConvertAsWritten(f) == Raised(KeyError)
  {
  }

  /** As written, the item-location branch returns the ctx, not an error. */
  lemma {:induction false} ItemLocationReturnsCtx(f: RawFailure)
    requires f.kind == LiteralError && f.ctx.Some? && CtxHas(f.ctx.value, "expected", ItemLocationsExpected)
    requires At3(f.loc, "item", "monograph_record", "item_location")
    ensures ConvertAsWritten(f) == Ok(CtxOnly(f.ctx.value))
  {
    ItemLocationNotVendor();
  }

  lemma {:induction false} ItemLocationNotVendor()
    ensures ItemLocationsExpected != VendorExpected
  {
    assert |ItemLocationsExpected| != |VendorExpected|;
  }

  /** Corrected: an extra key gets the item-record message at any path,
      with or without ctx. */
  lemma {:induction false} ExtraForbiddenMessage(f: RawFailure)
    requires f.loc != [] && f.kind == ExtraForbidden
    ensures Convert(f).Ok? && Convert(f).value.Rewritten?
    ensures Convert(f).value.msg == ExtraItemMsg && Convert(f).value.loc == f.loc[|f.loc| - 1]
  {
  }

  /** Corrected: the item-location branch returns the error with its
      message and without ctx. */
  lemma {:induction false} ItemLocationMessage(f: RawFailure)
    requires f.kind == LiteralError && f.ctx.Some? && CtxHas(f.ctx.value, "expected", ItemLocationsExpected)
    requires At3(f.loc, "item", "monograph_record", "item_location")
    ensures Convert(f) == Ok(Rewritten(f.kind, Name("item_location"), f.input, None, ItemLocationMsg))
  {
    ItemLocationNotVendor();
  }

  /** The correction changes nothing else: a failure with ctx outside the
      item-location branch converts as written. */
  lemma {:induction false} CorrectionAgrees(f: RawFailure)
    requires f.ctx.Some?
    requires !(ExpectedIs(f.kind, f.ctx.value, ItemLocationsExpected) && At3(f.loc, "item", "monograph_record", "item_location"))
    ensures Convert(f) == ConvertAsWritten(f)
  {
  }

  /** An item price failure at the path the schema really reports
      (`item`, `monograph_record`, `item_price`) falls through: the branch
      expects a two-element path. */
  lemma {:induction false} ItemPriceFallsThrough(f: RawFailure)
    requires f.kind == StringPatternMismatch && f.ctx == Some(map["pattern" := ItemPrice.text])
    requires At3(f.loc, "item", "monograph_record", "item_price")
    ensures ConvertAsWritten(f) == Ok(Unchanged(f))
  {
  }
}

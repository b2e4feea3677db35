/**
 * The report builder of the third iteration (src/errors.py).
 *
 * Pattern and literal failures get a business message when their signature
 * is listed (and None otherwise); every other failure is only relocated.
 * Locations are rewritten into MARC tags through a field catalog; the
 * catalog this file imports (`src.translate.RLMarcEncoding`) is not part of
 * this model, so it is a parameter, and a name outside it raises KeyError
 * as `Enum[name]` does.
 *
 * `format_error_messages` keeps the relocated failures in input order,
 * collects the missing and the extra locations separately, and appends one
 * summary for each of the two lists that is not empty.
 */
module SrcErrors {
  import opened Values
  import opened Patterns

  /** The location of a converted error. */
  datatype ReportLoc =
    | Tag(tag: string)                                  // "949$i"
    | ItemTag(item: string, tag: string)                // ("item_0", "949$i")
    | ItemSets(item: string, location: set<string>, itemType: set<string>, orderLocation: set<string>)
    | LocList(locs: seq<ReportLoc>)                     // a summary's list of locations

  /** The input of a converted error: the failure's, or a summary's list. */
  datatype Input = Raw(value: Value) | Locs(locs: seq<ReportLoc>)

  datatype NewError = NewError(kind: ErrorType, loc: ReportLoc, input: Input, msg: Option<string>)


  function ItemLabel(e: PathElem): string
  {
    "item_" + ElemText(e)
  }

  predicate HasItems(loc: Path)
  {
    Name("items") in loc
  }

  /** The loc string_errors and literal_errors build: (f"item_{loc[1]}",
      tag of loc[-1]) when "items" occurs in the path, else the tag of
      loc[-1]. */
  function FieldLoc(catalog: Catalog, loc: Path): (r: Result<ReportLoc>)
    ensures r.Ok? <==> loc != [] && (HasItems(loc) ==> |loc| >= 2)
                       && loc[|loc| - 1].Name? && loc[|loc| - 1].name in catalog
    ensures r.Ok? && HasItems(loc) ==> r.value == ItemTag(ItemLabel(loc[1]), catalog[loc[|loc| - 1].name])
    ensures r.Ok? && !HasItems(loc) ==> r.value == Tag(catalog[loc[|loc| - 1].name])
  {
    if HasItems(loc) then
      if |loc| < 2 then Raised(IndexError)
      else
        match CatalogTag(catalog, loc[|loc| - 1])
        case Raised(x) => Raised(x)
        case Ok(t) => Ok(ItemTag(ItemLabel(loc[1]), t))
    else if loc == [] then Raised(IndexError)
    else
      match CatalogTag(catalog, loc[|loc| - 1])
      case Raised(x) => Raised(x)
      case Ok(t) => Ok(Tag(t))
  }

  /** The same tag as the last path element, relabelled "item_0" when
      "items" occurs in the path: the counter other_errors uses is reset to
      0 on every call. */
  function ItemZeroLoc(catalog: Catalog, loc: Path): (r: Result<ReportLoc>)
    ensures loc == [] ==> r == Raised(IndexError)
    ensures loc != [] ==> (r.Ok? <==> CatalogTag(catalog, loc[|loc| - 1]).Ok?)
    ensures loc != [] && r.Raised? ==> r.exception == KeyError
    ensures r.Ok? && HasItems(loc) ==> r.value == ItemTag("item_0", catalog[loc[|loc| - 1].name])
    ensures r.Ok? && !HasItems(loc) ==> r.value == Tag(catalog[loc[|loc| - 1].name])
  {
    if loc == [] then Raised(IndexError)
    else
      match CatalogTag(catalog, loc[|loc| - 1])
      case Raised(x) => Raised(x)
      case Ok(t) => if HasItems(loc) then Ok(ItemTag("item_0", t)) else Ok(Tag(t))
  }

  // ---------------------------------------------------------------------
  // The three converters

  const BarcodeMsg := "Invalid barcode"
  const ReCAPMsg := "Invalid ReCAP call number"
  const PricePrefix := "Invalid price; "
  const PriceSuffix := " should not include a decimal point"
  const DateMsg := "Invalid date; invoice date should be YYMMDD"
  const ItemPriceMsg := "Invalid price; item price should include a decimal point"
  const CapsMsg := "Invalid item message; message should be in all caps"
  const VendorMsg := "Invalid vendor code"
  const IdentifierMsg := "Invalid library identifier"
  const CallTagMsg := "Invalid item call tag"
  const ItemLocationMsg := "Item location does not match a valid location"
  const OrderLocationMsg := "Order location does not match a valid location"

  const VendorExpected := "'EVP' or 'AUXAM'"
  const ItemLocationsExpected := "'rcmb2', 'rcmf2', 'rcmg2', 'rc2ma', 'rcmp2', 'rcph2', 'rcpm2', 'rcpt2' or 'rc2cf'"
  const OrderLocationsExpected := "'MAB', 'MAF', 'MAG', 'MAL', 'MAP', 'MAS', 'PAD', 'PAH', 'PAM', 'PAT' or 'SC'"

  /** `("items", _, _, field)` */
  predicate ItemField(loc: Path, field: string)
  {
    |loc| == 4 && loc[0] == Name("items") && loc[3] == Name(field)
  }

  predicate CtxHas(ctx: Ctx, key: string, value: string)
  {
    key in ctx && ctx[key] == value
  }

  /** f"Invalid price; {loc[0].title()} should ..."; an item index has no
      `title`. */
  function PriceMessage(loc: Path): (r: Result<string>)
    requires loc != []
  {
    match loc[0]
    case Name(s) => Ok(PricePrefix + Title(s) + PriceSuffix)
    case Index(_) => Raised(AttributeError)
  }

  /** The pattern-failure message, tried in the match's order; None when no
      case applies. */
  function PatternMessage(loc: Path, pattern: string): (r: Result<Option<string>>)
    requires loc != []
  {
    if ItemField(loc, "item_barcode") && pattern == BarcodeAny.text then Ok(Some(BarcodeMsg))
    else if pattern == ReCAPCallNo.text then Ok(Some(ReCAPMsg))
    else if pattern == DigitsMin3.text || pattern == DigitsMin1.text then
      match PriceMessage(loc)
      case Raised(x) => Raised(x)
      case Ok(m) => Ok(Some(m))
    else if pattern == SixDigits.text then Ok(Some(DateMsg))
    else if ItemField(loc, "item_price") && pattern == ItemPrice.text then Ok(Some(ItemPriceMsg))
    else if |loc| == 4 && loc[0] == Name("items") && pattern == CapsMessage.text then Ok(Some(CapsMsg))
    else Ok(None)
  }

  /** `string_errors`: the new loc first, then the ctx is read; None when no
      listed signature matches. */
  function StringErrors(catalog: Catalog, f: RawFailure): (r: Result<Option<NewError>>)
    ensures r.Ok? ==> FieldLoc(catalog, f.loc).Ok? && f.ctx.Some?
    ensures FieldLoc(catalog, f.loc).Ok? && f.ctx.None? ==> r == Raised(KeyError)
    ensures r.Ok? && r.value.Some? ==>
              && r.value.value == NewError(f.kind, FieldLoc(catalog, f.loc).value, Raw(f.input), r.value.value.msg)
              && f.kind == StringPatternMismatch && "pattern" in f.ctx.value && r.value.value.msg.Some?
              && PatternMessage(f.loc, f.ctx.value["pattern"]) == Ok(r.value.value.msg)
    ensures FieldLoc(catalog, f.loc).Raised? ==> r == Raised(FieldLoc(catalog, f.loc).exception)
    ensures FieldLoc(catalog, f.loc).Ok? && f.ctx.Some? && (f.kind != StringPatternMismatch || "pattern" !in f.ctx.value)
            ==> r == Ok(None)
    ensures FieldLoc(catalog, f.loc).Ok? && f.ctx.Some? && f.kind == StringPatternMismatch && "pattern" in f.ctx.value ==>
              var m := PatternMessage(f.loc, f.ctx.value["pattern"]);
              && (m.Raised? ==> r == Raised(m.exception))
              && (m == Ok(None) ==> r == Ok(None))
              && (m.Ok? && m.value.Some? ==>
                    r == Ok(Some(NewError(f.kind, FieldLoc(catalog, f.loc).value, Raw(f.input), m.value))))
  {
    match FieldLoc(catalog, f.loc)
    case Raised(x) => Raised(x)
    case Ok(loc) =>
      if f.ctx.None? then Raised(KeyError)
      else if f.kind != StringPatternMismatch || "pattern" !in f.ctx.value then Ok(None)
      else
        match PatternMessage(f.loc, f.ctx.value["pattern"])
        case Raised(x) => Raised(x)
        case Ok(None) => Ok(None)
        case Ok(Some(m)) => Ok(Some(NewError(f.kind, loc, Raw(f.input), Some(m))))
  }

  function LiteralMessage(expected: string): Option<string>
  {
    if expected == VendorExpected then Some(VendorMsg)
    else if expected == "'RL'" then Some(IdentifierMsg)
    else if expected == "'8528'" then Some(CallTagMsg)
    else if expected == ItemLocationsExpected then Some(ItemLocationMsg)
    else if expected == OrderLocationsExpected then Some(OrderLocationMsg)
    else None
  }

  /** `literal_errors`: as string_errors, matching on the ctx alone. */
  function LiteralErrors(catalog: Catalog, f: RawFailure): (r: Result<Option<NewError>>)
    ensures r.Ok? ==> FieldLoc(catalog, f.loc).Ok? && f.ctx.Some?
    ensures FieldLoc(catalog, f.loc).Ok? && f.ctx.None? ==> r == Raised(KeyError)
    ensures r.Ok? && r.value.Some? ==>
              && r.value.value == NewError(f.kind, FieldLoc(catalog, f.loc).value, Raw(f.input), r.value.value.msg)
              && f.kind == LiteralError && "expected" in f.ctx.value && r.value.value.msg.Some?
              && LiteralMessage(f.ctx.value["expected"]) == r.value.value.msg
    ensures FieldLoc(catalog, f.loc).Raised? ==> r == Raised(FieldLoc(catalog, f.loc).exception)
    ensures FieldLoc(catalog, f.loc).Ok? && f.ctx.Some? && (f.kind != LiteralError || "expected" !in f.ctx.value)
            ==> r == Ok(None)
    ensures FieldLoc(catalog, f.loc).Ok? && f.ctx.Some? && f.kind == LiteralError && "expected" in f.ctx.value ==>
              r == Ok(if LiteralMessage(f.ctx.value["expected"]).Some?
                      then Some(NewError(f.kind, FieldLoc(catalog, f.loc).value, Raw(f.input),
                                         LiteralMessage(f.ctx.value["expected"])))
                      else None)
  {
    match FieldLoc(catalog, f.loc)
    case Raised(x) => Raised(x)
    case Ok(loc) =>
      if f.ctx.None? then Raised(KeyError)
      else if f.kind != LiteralError || "expected" !in f.ctx.value then Ok(None)
      else
        match LiteralMessage(f.ctx.value["expected"])
        case None => Ok(None)
        case Some(m) => Ok(Some(NewError(f.kind, loc, Raw(f.input), Some(m))))
  }

  /** (f"item_{loc[0]}", {tag of loc[1]}, {tag of loc[2]}, {tag of loc[3]}),
      evaluated left to right: an unknown name met before the path runs
      out raises KeyError, a path that runs out first IndexError. */
  function ComboLoc(catalog: Catalog, loc: Path): (r: Result<ReportLoc>)
    ensures r.Ok? <==> |loc| >= 4 && CatalogTag(catalog, loc[1]).Ok? && CatalogTag(catalog, loc[2]).Ok?
                       && CatalogTag(catalog, loc[3]).Ok?
    ensures r.Ok? ==> r.value == ItemSets(ItemLabel(loc[0]), {catalog[loc[1].name]}, {catalog[loc[2].name]},
                                          {catalog[loc[3].name]})
    ensures r == Raised(KeyError) <==>
              || (|loc| > 1 && CatalogTag(catalog, loc[1]).Raised?)
              || (|loc| > 2 && CatalogTag(catalog, loc[2]).Raised?)
              || (|loc| > 3 && CatalogTag(catalog, loc[3]).Raised?)
    ensures r.Raised? ==> r.exception == KeyError || r.exception == IndexError
  {
    if |loc| < 2 then Raised(IndexError)
    else
      match CatalogTag(catalog, loc[1])
      case Raised(x) => Raised(x)
      case Ok(a) =>
        if |loc| < 3 then Raised(IndexError)
        else
          match CatalogTag(catalog, loc[2])
          case Raised(x) => Raised(x)
          case Ok(b) =>
            if |loc| < 4 then Raised(IndexError)
            else
              match CatalogTag(catalog, loc[3])
              case Raised(x) => Raised(x)
              case Ok(c) => Ok(ItemSets(ItemLabel(loc[0]), {a}, {b}, {c}))
  }

  /** `other_errors`: type and input kept, no message, loc relocated by
      type: a missing or extra field to the tag of its last path element
      (labelled "item_0" inside an item), a combination failure to its
      item and three tag sets, any other failure to the tag of its last
      path element. */
  function OtherErrors(catalog: Catalog, f: RawFailure): (r: Result<NewError>)
    ensures r.Ok? ==> r.value.kind == f.kind && r.value.input == Raw(f.input) && r.value.msg.None?
    ensures f.loc == [] ==> r == Raised(IndexError)
    ensures f.kind == LocationCheck ==> (r.Ok? <==> ComboLoc(catalog, f.loc).Ok?)
    ensures f.kind == LocationCheck && r.Ok? ==> r.value.loc == ComboLoc(catalog, f.loc).value
    ensures f.kind != LocationCheck && f.loc != [] ==> (r.Ok? <==> CatalogTag(catalog, f.loc[|f.loc| - 1]).Ok?)
    ensures (f.kind == Missing || f.kind == ExtraForbidden) && r.Ok? ==> r.value.loc == ItemZeroLoc(catalog, f.loc).value
    ensures f.kind !in {Missing, ExtraForbidden, LocationCheck} && r.Ok? ==>
              r.value.loc == Tag(catalog[f.loc[|f.loc| - 1].name])
    ensures f.loc != [] && r.Raised? ==> r.exception == KeyError || (f.kind == LocationCheck && r.exception == IndexError)
  {
    var loc :=
      if f.kind == ExtraForbidden || f.kind == Missing then ItemZeroLoc(catalog, f.loc)
      else if f.kind == LocationCheck then (if f.loc == [] then Raised(IndexError) else ComboLoc(catalog, f.loc))
      else if f.loc == [] then Raised(IndexError)
      else
        match CatalogTag(catalog, f.loc[|f.loc| - 1])
        case Raised(x) => Raised(x)
        case Ok(t) => Ok(Tag(t));
    match loc
    case Raised(x) => Raised(x)
    case Ok(l) => Ok(NewError(f.kind, l, Raw(f.input), None))
  }

  // ---------------------------------------------------------------------
  // format_error_messages

  /** The converter the loop applies to a failure of this type. */
  function Convert(catalog: Catalog, f: RawFailure): (r: Result<Option<NewError>>)
    ensures r.Ok? && r.value.Some? ==> r.value.value.kind == f.kind
    ensures r.Ok? && f.kind != StringPatternMismatch && f.kind != LiteralError ==> r.value.Some?
    ensures f.kind == StringPatternMismatch ==> r == StringErrors(catalog, f)
    ensures f.kind == LiteralError ==> r == LiteralErrors(catalog, f)
    ensures f.kind != StringPatternMismatch && f.kind != LiteralError ==>
              && (r.Ok? <==> OtherErrors(catalog, f).Ok?)
              && (r.Ok? ==> r.value == Some(OtherErrors(catalog, f).value))
              && (r.Raised? ==> r.exception == OtherErrors(catalog, f).exception)
  {
    if f.kind == StringPatternMismatch then StringErrors(catalog, f)
    else if f.kind == LiteralError then LiteralErrors(catalog, f)
    else
      match OtherErrors(catalog, f)
      case Raised(x) => Raised(x)
      case Ok(e) => Ok(Some(e))
  }

  /** The three lists the loop appends to. */
  datatype Lists = Lists(errors: seq<Option<NewError>>, missing: seq<ReportLoc>, extra: seq<ReportLoc>)

  const NoLists := Lists([], [], [])

  /** A converted failure placed by its type. */
  function Place(ls: Lists, kind: ErrorType, c: Option<NewError>): Lists
  {
    if kind == ExtraForbidden then (if c.Some? then ls.(extra := ls.extra + [c.value.loc]) else ls)
    else if kind == Missing then (if c.Some? then ls.(missing := ls.missing + [c.value.loc]) else ls)
    else ls.(errors := ls.errors + [c])
  }

  function Conversions(catalog: Catalog, fs: seq<RawFailure>): (cs: seq<Result<Option<NewError>>>)
    ensures |cs| == |fs|
  {
    seq(|fs|, k requires 0 <= k < |fs| => Convert(catalog, fs[k]))
  }

  /** The lists after the first `n` failures, or the first exception. */
  function Gather(fs: seq<RawFailure>, cs: seq<Result<Option<NewError>>>, n: nat): Result<Lists>
    requires n <= |fs| == |cs|
  {
    if n == 0 then Ok(NoLists)
    else
      match Gather(fs, cs, n - 1)
      case Raised(x) => Raised(x)
      case Ok(ls) =>
        match cs[n - 1]
        case Raised(x) => Raised(x)
        case Ok(c) => Ok(Place(ls, fs[n - 1].kind, c))
  }

  /** One summary: "<n> missing field/subfield(s)" with the list as loc and
      input. */
  function Summary(kind: ErrorType, suffix: string, locs: seq<ReportLoc>): NewError
  {
    NewError(kind, LocList(locs), Locs(locs), Some(NatToString(|locs|) + suffix))
  }

  const MissingSuffix := " missing field/subfield(s)"
  const ExtraSuffix := " extra field/subfield(s)"

  /** The errors, then a missing summary and an extra summary, each only
      when its list is not empty. */
  function Report(ls: Lists): seq<Option<NewError>>
  {
    ls.errors
    + (if |ls.missing| > 0 then [Some(Summary(Missing, MissingSuffix, ls.missing))] else [])
    + (if |ls.extra| > 0 then [Some(Summary(ExtraForbidden, ExtraSuffix, ls.extra))] else [])
  }

  function FormatSpec(catalog: Catalog, fs: seq<RawFailure>): Result<seq<Option<NewError>>>
  {
    match Gather(fs, Conversions(catalog, fs), |fs|)
    case Raised(x) => Raised(x)
    case Ok(ls) => Ok(Report(ls))
  }

  lemma {:induction false} GatherRaisedPersists(fs: seq<RawFailure>, cs: seq<Result<Option<NewError>>>, m: nat, n: nat)
    requires m <= n <= |fs| == |cs|
    requires Gather(fs, cs, m).Raised?
    ensures Gather(fs, cs, n) == Gather(fs, cs, m)
  {
    if m < n {
      GatherRaisedPersists(fs, cs, m, n - 1);
    }
  }

  /** The loop body: one failure converted and appended where its type
      belongs. */
  method AppendError(catalog: Catalog, ls: Lists, error: RawFailure)
    returns (converted: Result<Option<NewError>>, next: Lists)
    ensures converted == Convert(catalog, error)
    ensures converted.Ok? ==> next == Place(ls, error.kind, converted.value)
  {
    next := ls;
    if error.kind == StringPatternMismatch {
      converted := StringErrors(catalog, error);
      if converted.Ok? {
        next := next.(errors := next.errors + [converted.value]);
      }
    } else if error.kind == LiteralError {
      converted := LiteralErrors(catalog, error);
      if converted.Ok? {
        next := next.(errors := next.errors + [converted.value]);
      }
    } else {
      var other := OtherErrors(catalog, error);
      if other.Raised? {
        converted := Raised(other.exception);
      } else {
        converted := Ok(Some(other.value));
        if error.kind == ExtraForbidden {
          next := next.(extra := next.extra + [other.value.loc]);
        } else if error.kind == Missing {
          next := next.(missing := next.missing + [other.value.loc]);
        } else {
          next := next.(errors := next.errors + [converted.value]);
        }
      }
    }
  }

  method CollectLists(catalog: Catalog, fs: seq<RawFailure>, ghost cs: seq<Result<Option<NewError>>>)
    returns (r: Result<Lists>)
    requires |cs| == |fs|
    requires forall k {:trigger Convert(catalog, fs[k])} :: 0 <= k < |fs| ==> cs[k] == Convert(catalog, fs[k])
    ensures r == Gather(fs, cs, |fs|)
  {
    var ls := NoLists;
    var i := 0;
    while i < |fs|
      invariant i <= |fs|
      invariant Gather(fs, cs, i) == Ok(ls)
    {
      var converted, next := AppendError(catalog, ls, fs[i]);
      assert cs[i] == converted;
      GatherStep(fs, cs, i);
      if converted.Raised? {
        GatherRaisedPersists(fs, cs, i + 1, |fs|);
        return Raised(converted.exception);
      }
      ls := next;
      i := i + 1;
    }
    r := Ok(ls);
  }

  /** One more conversion: its exception, or its placement. */
  lemma {:induction false} GatherStep(fs: seq<RawFailure>, cs: seq<Result<Option<NewError>>>, i: nat)
    requires i < |fs| == |cs| && Gather(fs, cs, i).Ok?
    ensures cs[i].Raised? ==> Gather(fs, cs, i + 1) == Raised(cs[i].exception)
    ensures cs[i].Ok? ==> Gather(fs, cs, i + 1) == Ok(Place(Gather(fs, cs, i).value, fs[i].kind, cs[i].value))
  {
  }

  /** `format_error_messages`: the loop, then the two summaries. */
  method FormatErrorMessages(catalog: Catalog, fs: seq<RawFailure>) returns (r: Result<seq<Option<NewError>>>)
    ensures r == FormatSpec(catalog, fs)
  {
    var lists := CollectLists(catalog, fs, Conversions(catalog, fs));
    if lists.Raised? {
      return Raised(lists.exception);
    }
    var errors := lists.value.errors;
    var missing := lists.value.missing;
    var extra := lists.value.extra;
    if |missing| > 0 {
      errors := errors + [Some(Summary(Missing, MissingSuffix, missing))];
    }
    if |extra| > 0 {
      errors := errors + [Some(Summary(ExtraForbidden, ExtraSuffix, extra))];
    }
    assert errors == Report(lists.value);
    r := Ok(errors);
  }

  // ---------------------------------------------------------------------
  // Properties

  /** Each failure lands in exactly one list by its type. */
  lemma {:induction false} GatherBuckets(fs: seq<RawFailure>, cs: seq<Result<Option<NewError>>>, n: nat)
    requires n <= |fs| == |cs|
    requires forall k :: (0 <= k < |cs| && cs[k].Ok? && fs[k].kind != StringPatternMismatch
                          && fs[k].kind != LiteralError) ==> cs[k].value.Some?
    requires Gather(fs, cs, n).Ok?
    ensures var ls := Gather(fs, cs, n).value;
            && |ls.missing| == KindCount(fs, n, Missing)
            && |ls.extra| == KindCount(fs, n, ExtraForbidden)
            && |ls.errors| + KindCount(fs, n, Missing) + KindCount(fs, n, ExtraForbidden) == n
  {
    if n > 0 {
      GatherBuckets(fs, cs, n - 1);
    }
  }

  /** The report has one entry per failure that is neither missing nor
      extra, plus one summary per non-empty list of those two. */
  lemma {:induction false} ReportLength(catalog: Catalog, fs: seq<RawFailure>)
    requires FormatSpec(catalog, fs).Ok?
    ensures var m := KindCount(fs, |fs|, Missing);
            var x := KindCount(fs, |fs|, ExtraForbidden);
            |FormatSpec(catalog, fs).value| == |fs| - m - x + (if m > 0 then 1 else 0) + (if x > 0 then 1 else 0)
  {
    var cs := Conversions(catalog, fs);
    forall k | 0 <= k < |cs| && cs[k].Ok? && fs[k].kind != StringPatternMismatch && fs[k].kind != LiteralError
      ensures cs[k].value.Some?
    {
      assert cs[k] == Convert(catalog, fs[k]);
    }
    GatherBuckets(fs, cs, |fs|);
  }

  /** The missing summary follows the errors: its loc and input are the
      missing list and its message counts it. */
  lemma {:induction false} MissingSummaryAfterErrors(ls: Lists)
    requires |ls.missing| > 0
    ensures |Report(ls)| > |ls.errors|
    ensures Report(ls)[..|ls.errors|] == ls.errors
    ensures Report(ls)[|ls.errors|] == Some(NewError(Missing, LocList(ls.missing), Locs(ls.missing),
                                                     Some(NatToString(|ls.missing|) + MissingSuffix)))
  {
    var rest := [Some(Summary(Missing, MissingSuffix, ls.missing))];
    var tail := if |ls.extra| > 0 then [Some(Summary(ExtraForbidden, ExtraSuffix, ls.extra))] else [];
    assert Report(ls) == ls.errors + rest + tail;
    assert Report(ls)[..|ls.errors|] == ls.errors;
  }

  /** The extra summary is last, when there is one. */
  lemma {:induction false} ExtraSummaryLast(ls: Lists)
    requires |ls.extra| > 0
    ensures Report(ls)[|Report(ls)| - 1] == Some(Summary(ExtraForbidden, ExtraSuffix, ls.extra))
  {
  }

  /** No failures, no report. */
  lemma {:induction false} NoFailuresEmptyReport(catalog: Catalog)
    ensures FormatSpec(catalog, []) == Ok([])
  {
    assert Gather([], Conversions(catalog, []), 0) == Ok(NoLists);
    assert Report(NoLists) == [];
  }

  /** Every missing or extra item field is labelled "item_0", whatever its
      item's index. */
  lemma {:induction false} ItemFieldsLabelledZero(catalog: Catalog, f: RawFailure, n: nat, lib: string, field: string)
    requires f.kind == Missing || f.kind == ExtraForbidden
    requires f.loc == [Name("items"), Index(n), Name(lib), Name(field)] && field in catalog
    ensures OtherErrors(catalog, f) == Ok(NewError(f.kind, ItemTag("item_0", catalog[field]), Raw(f.input), None))
  {
    assert f.loc[|f.loc| - 1] == Name(field);
  }

  /** A pattern or literal failure on an item field is labelled with its
      item's index. */
  lemma {:induction false} ItemFieldsLabelledByIndex(catalog: Catalog, loc: Path, n: nat, lib: string, field: string)
    requires loc == [Name("items"), Index(n), Name(lib), Name(field)] && field in catalog
    ensures FieldLoc(catalog, loc) == Ok(ItemTag("item_" + NatToString(n), catalog[field]))
  {
    assert HasItems(loc) by { assert loc[0] == Name("items"); }
  }

  /** A name outside the catalog raises KeyError. */
  lemma {:induction false} UnlistedFieldRaises(catalog: Catalog, f: RawFailure, field: string)
    requires f.kind == Missing && f.loc == [Name(field)] && field !in catalog && field != "items"
    ensures Convert(catalog, f) == Raised(KeyError)
  {
    assert !HasItems(f.loc);
  }

  /** The combination failure's loc (i, a, b, c) becomes item_i with three
      one-element tag sets. */
  lemma {:induction false} ComboSets(catalog: Catalog, f: RawFailure, i: string, a: string, b: string, c: string)
    requires f.kind == LocationCheck && f.loc == [Name(i), Name(a), Name(b), Name(c)]
    requires a in catalog && b in catalog && c in catalog
    ensures OtherErrors(catalog, f) ==
            Ok(NewError(LocationCheck, ItemSets("item_" + i, {catalog[a]}, {catalog[b]}, {catalog[c]}), Raw(f.input), None))
  {
  }

  /** A three-element combination loc has no fourth element to read. */
  lemma {:induction false} ShortComboRaises(catalog: Catalog, f: RawFailure)
    requires f.kind == LocationCheck && |f.loc| == 3
    requires f.loc[1].Name? && f.loc[1].name in catalog && f.loc[2].Name? && f.loc[2].name in catalog
    ensures Convert(catalog, f) == Raised(IndexError)
  {
  }

  /** The digit-only price message title-cases the first path element. */
  lemma {:induction false} PriceMessageTitled(loc: Path, s: string)
    requires loc != [] && loc[0] == Name(s)
    ensures PatternMessage(loc, DigitsMin1.text) == Ok(Some(PricePrefix + Title(s) + PriceSuffix))
  {
    assert !ItemField(loc, "item_barcode") || DigitsMin1.text != BarcodeAny.text;
  }

  /** The digit-only price message differs from every fixed message: it
      reads "Invalid p..." and has no lower-case letter after "; ". */
  lemma {:induction false} PriceMessageDistinct(s: string)
    ensures var m := PricePrefix + Title(s) + PriceSuffix;
            m != BarcodeMsg && m != ReCAPMsg && m != DateMsg && m != ItemPriceMsg && m != CapsMsg
  {
    var m := PricePrefix + Title(s) + PriceSuffix;
    assert m[8] == 'p';
    assert BarcodeMsg[8] == 'b' && ReCAPMsg[8] == 'R' && DateMsg[8] == 'd' && CapsMsg[8] == 'i';
    assert ItemPriceMsg[15] == 'i';
    if |s| > 0 {
      assert m[15] == Title(s)[0];
    } else {
      assert m[15] == ' ';
    }
  }

  /** Which message each pattern signature gets, for every path and
      pattern: each fixed message arises exactly under its case's
      condition, a digit-only price pattern names the path's first element
      (AttributeError for an index), and nothing else has a message. */
  lemma {:induction false} PatternMessageTable(loc: Path, p: string)
    requires loc != []
    ensures PatternMessage(loc, p) == Ok(Some(BarcodeMsg)) <==> ItemField(loc, "item_barcode") && p == BarcodeAny.text
    ensures PatternMessage(loc, p) == Ok(Some(ReCAPMsg)) <==> p == ReCAPCallNo.text
    ensures PatternMessage(loc, p) == Ok(Some(DateMsg)) <==> p == SixDigits.text
    ensures PatternMessage(loc, p) == Ok(Some(ItemPriceMsg)) <==> ItemField(loc, "item_price") && p == ItemPrice.text
    ensures PatternMessage(loc, p) == Ok(Some(CapsMsg)) <==>
              |loc| == 4 && loc[0] == Name("items") && p == CapsMessage.text
    ensures (p == DigitsMin3.text || p == DigitsMin1.text) && loc[0].Name? ==>
              PatternMessage(loc, p) == Ok(Some(PricePrefix + Title(loc[0].name) + PriceSuffix))
    ensures PatternMessage(loc, p).Raised? <==> (p == DigitsMin3.text || p == DigitsMin1.text) && loc[0].Index?
    ensures PatternMessage(loc, p) == Ok(None) <==>
              !(ItemField(loc, "item_barcode") && p == BarcodeAny.text) && p != ReCAPCallNo.text
              && p != DigitsMin3.text && p != DigitsMin1.text && p != SixDigits.text
              && !(ItemField(loc, "item_price") && p == ItemPrice.text)
              && !(|loc| == 4 && loc[0] == Name("items") && p == CapsMessage.text)
  {
    if loc[0].Name? {
      PriceMessageDistinct(loc[0].name);
    }
  }

  /** An unlisted pattern gives None, which the report keeps as an entry. */
  lemma {:induction false} UnlistedPatternKeptAsNone(catalog: Catalog, f: RawFailure, t: string)
    requires f.kind == StringPatternMismatch && f.loc == [Name("order_fund")] && "order_fund" in catalog
    requires f.ctx == Some(map["pattern" := t]) && PatternMessage(f.loc, t) == Ok(None)
    ensures FormatSpec(catalog, [f]) == Ok([None])
  {
    assert !HasItems(f.loc);
    assert FieldLoc(catalog, f.loc).Ok?;
    assert StringErrors(catalog, f) == Ok(None);
    var cs := Conversions(catalog, [f]);
    assert cs[0] == Ok(None);
    assert Gather([f], cs, 0) == Ok(NoLists);
    assert Place(NoLists, f.kind, None) == Lists([None], [], []);
    assert Gather([f], cs, 1) == Ok(Lists([None], [], []));
    assert Report(Lists([None], [], [])) == [None];
  }
}

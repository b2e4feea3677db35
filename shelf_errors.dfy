/**
 * The error normaliser of the current validator: each raw failure is
 * rewritten with MARC tags in place of field names (and an "item_<n>" label
 * for failures inside the n-th item), given a business message where its
 * type and ctx are listed in a fixed table, and sorted into the report's
 * lists: missing fields, extra fields, invalid fields, notes and the
 * converted failures themselves.
 *
 * The normaliser looks names up in the catalog without a fallback and reads
 * a failure's ctx without checking it exists; those lookups raise, and the
 * model returns the exception instead of a report.
 */
module ShelfErrors {
  import opened Values
  import opened Patterns
  import ShelfTranslate
  import ShelfModels

  /** The location a converted failure reports. */
  datatype ReportLoc =
    | Tag(tag: string)                                   // "949$i"
    | ItemTag(item: string, tag: string)                 // ("item_0", "949$i")
    | TagList(tags: seq<string>)                         // ["949_0", "949_1"]
    | ItemTriple(item: string, location: string, itemType: string, orderLocation: string)

  /** A failure after conversion: the raw failure's fields with loc, and
      possibly input and msg, replaced. */
  datatype Converted = Converted(kind: ErrorType, loc: ReportLoc, msg: string, input: Value, ctx: Option<Ctx>)

  function Copy(f: RawFailure, loc: ReportLoc): (c: Converted)
  {
    Converted(f.kind, loc, f.msg, f.input, f.ctx)
  }

  /** f"item_{loc[i]}" */
  function ItemLabel(e: PathElem): string
  {
    "item_" + ElemText(e)
  }

  /** (f"item_{loc[1]}", RLMarcEncoding[loc[k]]) */
  function ItemTagAt(loc: Path, k: nat): (r: Result<ReportLoc>)
    requires 1 < |loc| && k < |loc|
    ensures r.Ok? <==> ShelfTranslate.Encode(loc[k]).Ok?
    ensures r.Ok? ==> r.value == ItemTag(ItemLabel(loc[1]), ShelfTranslate.Encode(loc[k]).value)
    ensures r.Raised? ==> r.exception == KeyError
  {
    match ShelfTranslate.Encode(loc[k])
    case Ok(t) => Ok(ItemTag(ItemLabel(loc[1]), t))
    case Raised(x) => Raised(x)
  }

  /** RLMarcEncoding[loc[0]] */
  function TagAt(loc: Path): (r: Result<ReportLoc>)
    requires 0 < |loc|
    ensures r.Ok? <==> ShelfTranslate.Encode(loc[0]).Ok?
    ensures r.Ok? ==> r.value == Tag(ShelfTranslate.Encode(loc[0]).value)
    ensures r.Raised? ==> r.exception == KeyError
  {
    match ShelfTranslate.Encode(loc[0])
    case Ok(t) => Ok(Tag(t))
    case Raised(x) => Raised(x)
  }

  predicate IsItemField(loc: Path) { |loc| == 4 && loc[0] == Name("items") }

  /** The path element whose tag a missing or matched failure reports: the
      field of an item field, else the first element. */
  function KeyElem(loc: Path): PathElem
    requires loc != []
  {
    if IsItemField(loc) then loc[3] else loc[0]
  }

  // ---------------------------------------------------------------------
  // The four converters

  /** missing_errors: the input becomes the original path; a field of an
      item reports as ("item_<n>", tag), anything else as the tag of the
      path's first element. */
  function MissingErrors(f: RawFailure): (r: Result<Converted>)
    ensures f.loc == [] ==> r == Raised(IndexError)
    ensures f.loc != [] ==> (r.Ok? <==> ShelfTranslate.Encode(KeyElem(f.loc)).Ok?)
    ensures f.loc != [] && r.Raised? ==> r.exception == KeyError
    ensures r.Ok? ==> r.value.input == PathValue(f.loc) && r.value.kind == f.kind && r.value.msg == f.msg
                      && r.value.ctx == f.ctx
    ensures r.Ok? && IsItemField(f.loc) ==>
              r.value.loc == ItemTag(ItemLabel(f.loc[1]), ShelfTranslate.Encode(f.loc[3]).value)
    ensures r.Ok? && !IsItemField(f.loc) ==> r.value.loc == Tag(ShelfTranslate.Encode(f.loc[0]).value)
  {
    if f.loc == [] then Raised(IndexError)
    else
      var loc := if IsItemField(f.loc) then ItemTagAt(f.loc, 3) else TagAt(f.loc);
      match loc
      case Raised(x) => Raised(x)
      case Ok(l) => Ok(Converted(f.kind, l, f.msg, PathValue(f.loc), f.ctx))
  }

  /** len() of a failure's input, where Python has one. */
  function Len(v: Value): Option<nat>
  {
    match v
    case Str(s) => Some(|s|)
    case List(es) => Some(|es|)
    case Dict(es) => Some(|es|)
    case _ => None
  }

  /** "<tag>_0", ..., "<tag>_<k-1>" */
  function Numbered(tag: string, k: nat): (ts: seq<string>)
    ensures |ts| == k
    ensures forall i :: 0 <= i < k ==> ts[i] == tag + "_" + NatToString(i)
  {
    seq(k, i requires 0 <= i < k => tag + "_" + NatToString(i))
  }

  /** extra_errors: a string input reports the tag; any other input a list
      of numbered tags, one per element. The lookup happens once per
      element, so an empty input looks nothing up; an input without len()
      raises TypeError. */
  function ExtraErrors(f: RawFailure): (r: Result<Converted>)
    ensures r.Ok? ==> r.value == Copy(f, r.value.loc)
    ensures f.input.Str? ==>
              if f.loc == [] then r == Raised(IndexError)
              else (r.Ok? <==> ShelfTranslate.Encode(f.loc[0]).Ok?) &&
                   (r.Ok? ==> r.value.loc == Tag(ShelfTranslate.Encode(f.loc[0]).value))
    ensures !f.input.Str? && Len(f.input).None? ==> r == Raised(TypeError)
    ensures !f.input.Str? && Len(f.input) == Some(0) ==> r == Ok(Copy(f, TagList([])))
    ensures !f.input.Str? && Len(f.input).Some? && Len(f.input).value > 0 ==>
              if f.loc == [] then r == Raised(IndexError)
              else (r.Ok? <==> ShelfTranslate.Encode(f.loc[0]).Ok?) &&
                   (r.Ok? ==> r.value.loc == TagList(Numbered(ShelfTranslate.Encode(f.loc[0]).value, Len(f.input).value)))
    ensures r.Raised? && f.loc != [] && Len(f.input).Some? ==> r.exception == KeyError
  {
    if f.input.Str? then
      if f.loc == [] then Raised(IndexError)
      else match TagAt(f.loc)
        case Raised(x) => Raised(x)
        case Ok(l) => Ok(Copy(f, l))
    else
      match Len(f.input)
      case None => Raised(TypeError)
      case Some(k) =>
        if k == 0 then Ok(Copy(f, TagList([])))
        else if f.loc == [] then Raised(IndexError)
        else match ShelfTranslate.Encode(f.loc[0])
          case Raised(x) => Raised(x)
          case Ok(t) => Ok(Copy(f, TagList(Numbered(t, k))))
  }

  /** item_order_errors: ("item_<loc[0]>", tag, tag, tag), built left to
      right: loc[1] is looked up before loc[2] is read, and so on. So a
      short path raises IndexError only when every element it does have
      is in the catalog; an unknown name met first raises KeyError. */
  function ItemOrderErrors(f: RawFailure): (r: Result<Converted>)
    ensures r.Ok? <==> |f.loc| >= 4 && ShelfTranslate.Encode(f.loc[1]).Ok? &&
                       ShelfTranslate.Encode(f.loc[2]).Ok? && ShelfTranslate.Encode(f.loc[3]).Ok?
    ensures r.Ok? ==> r.value == Copy(f, ItemTriple(ItemLabel(f.loc[0]), ShelfTranslate.Encode(f.loc[1]).value,
                                                    ShelfTranslate.Encode(f.loc[2]).value,
                                                    ShelfTranslate.Encode(f.loc[3]).value))
    ensures r == Raised(KeyError) <==>
              || (|f.loc| > 1 && ShelfTranslate.Encode(f.loc[1]).Raised?)
              || (|f.loc| > 2 && ShelfTranslate.Encode(f.loc[2]).Raised?)
              || (|f.loc| > 3 && ShelfTranslate.Encode(f.loc[3]).Raised?)
    ensures r.Raised? ==> r.exception == KeyError || r.exception == IndexError
  {
    if |f.loc| < 2 then Raised(IndexError)
    else
      match ShelfTranslate.Encode(f.loc[1])
      case Raised(x) => Raised(x)
      case Ok(a) =>
        if |f.loc| < 3 then Raised(IndexError)
        else
          match ShelfTranslate.Encode(f.loc[2])
          case Raised(x) => Raised(x)
          case Ok(b) =>
            if |f.loc| < 4 then Raised(IndexError)
            else
              match ShelfTranslate.Encode(f.loc[3])
              case Raised(x) => Raised(x)
              case Ok(c) => Ok(Copy(f, ItemTriple(ItemLabel(f.loc[0]), a, b, c)))
  }

  const PriceMsg := "Invalid price; price should not include a decimal point"

  /** The message match_errors gives a literal failure, by the enumeration
      text its ctx reports as "expected"; None where no case matches. */
  function LiteralMessage(expected: string): Option<string>
  {
    match expected
    case "' '" => Some("Invalid indicator")
    case "'1'" => Some("Invalid indicator")
    case "'EVP' or 'AUXAM'" => Some("Invalid vendor code")
    case "'RL'" => Some("Invalid library identifier")
    case "'8528'" => Some("Invalid item call tag")
    case "'rcmb2', 'rcmf2', 'rcmg2', 'rc2ma', 'rcmp2', 'rcph2', 'rcpm2', 'rcpt2' or 'rc2cf'" =>
      Some("Item location does not match a valid location")
    case "'MAB', 'MAF', 'MAG', 'MAL', 'MAP', 'MAS', 'PAD', 'PAH', 'PAM', 'PAT' or 'SC'" =>
      Some("Order location does not match a valid location")
    case "'043'" => Some("Invalid item agency code")
    case _ => None
  }

  /** The message match_errors gives a pattern failure, by the regex text
      its ctx reports as "pattern". */
  function PatternMessage(pattern: string): Option<string>
  {
    match pattern
    case "^33433[0-9]{9}$|^33333[0-9]{9}$|^34444[0-9]{9}$" => Some("Invalid barcode")
    case "^ReCAP 23-\\d{6}$|^ReCAP 24-\\d{6}$" => Some("Invalid ReCAP call number")
    case "^\\d{3,}$" => Some(PriceMsg)
    case "^\\d{1,}$" => Some(PriceMsg)
    case "^\\d{6}$" => Some("Invalid date; invoice date should be YYMMDD")
    case "^\\d{1,}\\.\\d{2}$" => Some("Invalid price; item price should include a decimal point")
    case "^[^a-z]+" => Some("Invalid item message; message should be in all caps")
    case _ => None
  }

  /** The cases of match_errors' `match (type, ctx)`: a mapping pattern
      matches a ctx holding that entry, whatever else it holds. */
  function TableMessage(kind: ErrorType, ctx: Ctx): Option<string>
  {
    if kind == LiteralError && "expected" in ctx then LiteralMessage(ctx["expected"])
    else if kind == StringPatternMismatch && "pattern" in ctx then PatternMessage(ctx["pattern"])
    else None
  }

  /** match_errors: the path rewritten (a field of an item, an item itself,
      or a record field), then the message replaced when the table lists the
      failure's type and ctx. */
  function MatchErrors(f: RawFailure): (r: Result<Converted>)
    ensures f.loc == [] ==> r == Raised(IndexError)
    ensures f.loc != [] ==> (r.Ok? <==> ShelfTranslate.Encode(KeyElem(f.loc)).Ok? && f.ctx.Some?)
    ensures f.loc != [] && r.Raised? ==> r.exception == KeyError
    ensures r.Ok? && IsItemField(f.loc) ==>
              r.value.loc == ItemTag(ItemLabel(f.loc[1]), ShelfTranslate.Encode(f.loc[3]).value)
    ensures r.Ok? && |f.loc| == 2 && f.loc[0] == Name("items") ==>
              r.value.loc == ItemTag(ItemLabel(f.loc[1]), ShelfTranslate.Encode(Name("items")).value)
    ensures r.Ok? && !IsItemField(f.loc) && !(|f.loc| == 2 && f.loc[0] == Name("items")) ==>
              r.value.loc == Tag(ShelfTranslate.Encode(f.loc[0]).value)
    ensures r.Ok? ==> f.ctx.Some? && r.value.kind == f.kind && r.value.input == f.input && r.value.ctx == f.ctx
    ensures r.Ok? ==> r.value.msg == (match TableMessage(f.kind, f.ctx.value)
                                      case Some(m) => m
                                      case None => f.msg)
  {
    if f.loc == [] then Raised(IndexError)
    else
      var loc :=
        if IsItemField(f.loc) then ItemTagAt(f.loc, 3)
        else if |f.loc| == 2 && f.loc[0] == Name("items") then ItemTagAt(f.loc, 0)
        else TagAt(f.loc);
      match loc
      case Raised(x) => Raised(x)
      case Ok(l) =>
        match f.ctx
        case None => Raised(KeyError)
        case Some(ctx) =>
          var msg := match TableMessage(f.kind, ctx) case Some(m) => m case None => f.msg;
          Ok(Converted(f.kind, l, msg, f.input, f.ctx))
  }

  // ---------------------------------------------------------------------
  // format_errors

  /** An entry of the report's "other_errors" list. */
  datatype Note =
    | ComboNote(item: string)   // "Invalid item/order data combination in <item>"
    | TagInvalidNote            // "Unable to validate item record; invalid 910$a"

  function NoteText(n: Note): string
  {
    match n
    case ComboNote(item) => "Invalid item/order data combination in " + item
    case TagInvalidNote => "Unable to validate item record; invalid 910$a"
  }
  const Indicators: seq<string> := ["852_ind1", "852_ind2", "949_ind1", "949_ind2"]

  /** The six lists, before the indicator filter. */
  datatype Lists = Lists(errors: seq<Converted>, missing: seq<ReportLoc>, extra: seq<string>,
                         invalid: seq<ReportLoc>, other: seq<Note>, otherFields: seq<ReportLoc>)

  datatype Summary = Summary(
    errorCount: nat,
    missingFieldCount: nat, missingFields: seq<ReportLoc>,
    extraFieldCount: nat, extraFields: seq<string>,
    invalidFieldCount: nat, invalidFields: seq<ReportLoc>,
    otherErrors: seq<Note>, otherErrorFields: seq<ReportLoc>,
    errors: seq<Converted>)

  /** The entries an extra failure adds: each element of a list location,
      or the location itself. extra_errors builds only these two shapes. */
  function ExtraEntries(l: ReportLoc): seq<string>
  {
    match l
    case TagList(ts) => ts
    case Tag(t) => [t]
    case _ => []
  }

  /** The converter format_errors applies to a failure of this type; every
      converter keeps the failure's type. */
  function Convert(f: RawFailure): (r: Result<Converted>)
    ensures r.Ok? ==> r.value.kind == f.kind
  {
    if f.kind == Missing then MissingErrors(f)
    else if f.kind == ExtraForbidden then ExtraErrors(f)
    else if f.kind == LocationCheck then ItemOrderErrors(f)
    else MatchErrors(f)
  }

  /** A converted failure placed in the lists its type belongs to. */
  function Place(ls: Lists, c: Converted): Lists
  {
    if c.kind == Missing then ls.(missing := ls.missing + [c.loc])
    else if c.kind == ExtraForbidden then ls.(extra := ls.extra + ExtraEntries(c.loc))
    else if c.kind == LocationCheck then
      ls.(other := ls.other + [ComboNote(if c.loc.ItemTriple? then c.loc.item else "")],
          otherFields := ls.otherFields + [c.loc],
          errors := ls.errors + [c])
    else if c.kind == UnionTagInvalid then ls.(other := ls.other + [TagInvalidNote], errors := ls.errors + [c])
    else ls.(invalid := ls.invalid + [c.loc], errors := ls.errors + [c])
  }

  /** Each failure converted, in order. */
  function Conversions(fs: seq<RawFailure>): (cs: seq<Result<Converted>>)
    ensures |cs| == |fs|
  {
    seq(|fs|, k requires 0 <= k < |fs| => Convert(fs[k]))
  }

  const NoLists := Lists([], [], [], [], [], [])

  /** The lists after placing the first `n` conversions, or the first
      exception among them. */
  function Gather(cs: seq<Result<Converted>>, n: nat): Result<Lists>
    requires n <= |cs|
  {
    if n == 0 then Ok(NoLists)
    else
      match Gather(cs, n - 1)
      case Raised(x) => Raised(x)
      case Ok(ls) =>
        match cs[n - 1]
        case Raised(x) => Raised(x)
        case Ok(c) => Ok(Place(ls, c))
  }

  predicate IsIndicatorLoc(l: ReportLoc) { l.Tag? && l.tag in Indicators }

  /** The missing locations without the four indicator tags, in order. */
  function DropIndicatorLocs(ls: seq<ReportLoc>): (r: seq<ReportLoc>)
    ensures |r| <= |ls|
  {
    if ls == [] then []
    else DropIndicatorLocs(ls[..|ls| - 1]) + if IsIndicatorLoc(ls[|ls| - 1]) then [] else [ls[|ls| - 1]]
  }

  /** The extra locations without the four indicator tags, in order. */
  function DropIndicators(ls: seq<string>): (r: seq<string>)
    ensures |r| <= |ls|
  {
    if ls == [] then []
    else DropIndicators(ls[..|ls| - 1]) + if ls[|ls| - 1] in Indicators then [] else [ls[|ls| - 1]]
  }

  function Summarize(ls: Lists): (s: Summary)
    ensures s.errorCount == s.missingFieldCount + s.extraFieldCount + |s.errors|
    ensures s.missingFieldCount == |s.missingFields| && s.extraFieldCount == |s.extraFields|
    ensures s.invalidFieldCount == |s.invalidFields|
    ensures s.missingFields == DropIndicatorLocs(ls.missing) && s.extraFields == DropIndicators(ls.extra)
    ensures s.errors == ls.errors && s.invalidFields == ls.invalid
    ensures s.otherErrors == ls.other && s.otherErrorFields == ls.otherFields
  {
    var missing := DropIndicatorLocs(ls.missing);
    var extra := DropIndicators(ls.extra);
    Summary(|missing| + |extra| + |ls.errors|, |missing|, missing, |extra|, extra,
            |ls.invalid|, ls.invalid, ls.other, ls.otherFields, ls.errors)
  }

  function FormatErrorsSpec(fs: seq<RawFailure>): Result<Summary>
  {
    match Gather(Conversions(fs), |fs|)
    case Raised(x) => Raised(x)
    case Ok(ls) => Ok(Summarize(ls))
  }

  /** Once a conversion raises, the exception is the outcome. */
  lemma {:induction false} GatherRaisedPersists(cs: seq<Result<Converted>>, m: nat, n: nat)
    requires m <= n <= |cs|
    requires Gather(cs, m).Raised?
    ensures Gather(cs, n) == Gather(cs, m)
  {
    if m < n {
      GatherRaisedPersists(cs, m, n - 1);
    }
  }

  /** The body of format_errors' loop: one failure converted and appended
      to the lists its type belongs to. */
  method AppendFailure(ls: Lists, error: RawFailure)
    returns (converted: Result<Converted>, next: Lists)
    ensures converted == Convert(error)
    ensures converted.Ok? ==> next == Place(ls, converted.value)
  {
    next := ls;
    if error.kind == Missing {
      converted := MissingErrors(error);
      if converted.Ok? {
        next := next.(missing := next.missing + [converted.value.loc]);
      }
    } else if error.kind == ExtraForbidden {
      converted := ExtraErrors(error);
      if converted.Ok? {
        next := next.(extra := next.extra + ExtraEntries(converted.value.loc));
      }
    } else if error.kind == LocationCheck {
      converted := ItemOrderErrors(error);
      if converted.Ok? {
        next := next.(other := next.other + [ComboNote(converted.value.loc.item)],
                      otherFields := next.otherFields + [converted.value.loc],
                      errors := next.errors + [converted.value]);
      }
    } else if error.kind == UnionTagInvalid {
      next := next.(other := next.other + [TagInvalidNote]);
      converted := MatchErrors(error);
      if converted.Ok? {
        next := next.(errors := next.errors + [converted.value]);
      }
    } else {
      converted := MatchErrors(error);
      if converted.Ok? {
        next := next.(invalid := next.invalid + [converted.value.loc], errors := next.errors + [converted.value]);
      }
    }
  }

  /** format_errors' loop: every failure converted and appended in order,
      stopping at the first exception. `cs` names the conversions the loop
      performs, so that the loop's proof only relates them. */
  method CollectLists(fs: seq<RawFailure>, ghost cs: seq<Result<Converted>>)
    returns (r: Result<Lists>)
    requires |cs| == |fs|
    requires forall k {:trigger Convert(fs[k])} :: 0 <= k < |fs| ==> cs[k] == Convert(fs[k])
    ensures r == Gather(cs, |fs|)
  {
    var ls := NoLists;
    var i := 0;
    while i < |fs|
      invariant i <= |fs|
      invariant Gather(cs, i) == Ok(ls)
    {
      var converted, next := AppendFailure(ls, fs[i]);
      assert cs[i] == converted;
      GatherStep(cs, i);
      if converted.Raised? {
        GatherRaisedPersists(cs, i + 1, |fs|);
        return Raised(converted.exception);
      }
      ls := next;
      i := i + 1;
    }
    r := Ok(ls);
  }

  /** One more conversion: its exception, or its placement. */
  lemma {:induction false} GatherStep(cs: seq<Result<Converted>>, i: nat)
    requires i < |cs| && Gather(cs, i).Ok?
    ensures cs[i].Raised? ==> Gather(cs, i + 1) == Raised(cs[i].exception)
    ensures cs[i].Ok? ==> Gather(cs, i + 1) == Ok(Place(Gather(cs, i).value, cs[i].value))
  {
  }

  /** format_errors: the loop, then the two filters and the summary. */
  method FormatErrors(fs: seq<RawFailure>) returns (r: Result<Summary>)
    ensures r == FormatErrorsSpec(fs)
  {
    var lists := CollectLists(fs, Conversions(fs));
    if lists.Raised? {
      return Raised(lists.exception);
    }
    var summary := ErrorSummary(lists.value);
    r := Ok(summary);
  }

  /** The tail of format_errors: the indicator filters and the summary dict. */
  method ErrorSummary(ls: Lists) returns (s: Summary)
    ensures s == Summarize(ls)
  {
    var keptMissing := KeepNonIndicatorLocs(ls.missing);
    var keptExtra := KeepNonIndicators(ls.extra);
    s := Summary(|keptMissing| + |keptExtra| + |ls.errors|, |keptMissing|, keptMissing, |keptExtra|, keptExtra,
                 |ls.invalid|, ls.invalid, ls.other, ls.otherFields, ls.errors);
  }

  /** `missing_fields[:] = (v for v in missing_fields if v not in indicators)` */
  method KeepNonIndicatorLocs(locs: seq<ReportLoc>) returns (kept: seq<ReportLoc>)
    ensures kept == DropIndicatorLocs(locs)
  {
    kept := [];
    var j := 0;
    while j < |locs|
      invariant j <= |locs|
      invariant kept == DropIndicatorLocs(locs[..j])
    {
      assert locs[..j + 1][..j] == locs[..j];
      if !IsIndicatorLoc(locs[j]) {
        kept := kept + [locs[j]];
      }
      j := j + 1;
    }
    assert locs[..j] == locs;
  }

  /** The same filter on the extra locations. */
  method KeepNonIndicators(tags: seq<string>) returns (kept: seq<string>)
    ensures kept == DropIndicators(tags)
  {
    kept := [];
    var j := 0;
    while j < |tags|
      invariant j <= |tags|
      invariant kept == DropIndicators(tags[..j])
    {
      assert tags[..j + 1][..j] == tags[..j];
      if tags[j] !in Indicators {
        kept := kept + [tags[j]];
      }
      j := j + 1;
    }
    assert tags[..j] == tags;
  }

  // ---------------------------------------------------------------------
  // Facts about the report

  /** Each failure lands in exactly one bucket by its type: missing ones in
      the missing list, extra ones in the extra list, all others in the
      errors list; combination and tag-invalid failures add a note each, the
      rest an invalid-field entry. */
  lemma {:induction false} GatherBuckets(fs: seq<RawFailure>, cs: seq<Result<Converted>>, n: nat)
    requires n <= |fs| == |cs|
    requires forall k :: 0 <= k < |cs| && cs[k].Ok? ==> cs[k].value.kind == fs[k].kind
    requires Gather(cs, n).Ok?
    ensures var ls := Gather(cs, n).value;
            && |ls.missing| == KindCount(fs, n, Missing)
            && |ls.errors| + KindCount(fs, n, Missing) + KindCount(fs, n, ExtraForbidden) == n
            && |ls.other| == |ls.otherFields| + KindCount(fs, n, UnionTagInvalid)
            && |ls.otherFields| == KindCount(fs, n, LocationCheck)
            && |ls.invalid| + |ls.other| == |ls.errors|
  {
    if n > 0 {
      var prev := Gather(cs, n - 1).value;
      var c := cs[n - 1].value;
      GatherBuckets(fs, cs, n - 1);
      PlaceGrowth(prev, c);
    }
  }

  /** How much one placement lengthens each list. */
  lemma {:induction false} PlaceGrowth(ls: Lists, c: Converted)
    ensures var next := Place(ls, c);
            && |next.missing| == |ls.missing| + (if c.kind == Missing then 1 else 0)
            && |next.errors| == |ls.errors| + (if c.kind in {Missing, ExtraForbidden} then 0 else 1)
            && |next.otherFields| == |ls.otherFields| + (if c.kind == LocationCheck then 1 else 0)
            && |next.other| == |ls.other| + (if c.kind in {LocationCheck, UnionTagInvalid} then 1 else 0)
            && |next.invalid| + |next.other| == |ls.invalid| + |ls.other| + (if c.kind in {Missing, ExtraForbidden} then 0 else 1)
  {
  }

  /** The report's counts: every failure that is neither missing nor extra
      is one entry of "errors", each combination or tag-invalid failure adds
      one note, and the filters only shrink the missing list. */
  lemma {:induction false} FormatErrorsBuckets(fs: seq<RawFailure>)
    requires FormatErrorsSpec(fs).Ok?
    ensures var s := FormatErrorsSpec(fs).value;
            && |s.errors| == |fs| - KindCount(fs, |fs|, Missing) - KindCount(fs, |fs|, ExtraForbidden)
            && |s.otherErrors| == KindCount(fs, |fs|, LocationCheck) + KindCount(fs, |fs|, UnionTagInvalid)
            && s.invalidFieldCount + |s.otherErrors| == |s.errors|
            && s.missingFieldCount <= KindCount(fs, |fs|, Missing)
            && s.errorCount == s.missingFieldCount + s.extraFieldCount + |s.errors|
  {
    var cs := Conversions(fs);
    forall k | 0 <= k < |cs| && cs[k].Ok? ensures cs[k].value.kind == fs[k].kind {
      assert cs[k] == Convert(fs[k]);
    }
    GatherBuckets(fs, cs, |fs|);
  }

  /** A tag survives the extra filter exactly when it is not one of the
      four indicator tags. */
  lemma {:induction false} DropIndicatorsIff(ls: seq<string>, t: string)
    ensures t in DropIndicators(ls) <==> t in ls && t !in Indicators
  {
    if ls != [] {
      DropIndicatorsIff(ls[..|ls| - 1], t);
      assert ls == ls[..|ls| - 1] + [ls[|ls| - 1]];
    }
  }

  /** The filter keeps order: filtering a concatenation filters each part. */
  lemma {:induction false} DropIndicatorsAppend(a: seq<string>, b: seq<string>)
    ensures DropIndicators(a + b) == DropIndicators(a) + DropIndicators(b)
  {
    if b != [] {
      var b' := b[..|b| - 1];
      assert (a + b)[..|a + b| - 1] == a + b';
      DropIndicatorsAppend(a, b');
    } else {
      assert a + b == a;
    }
  }

  /** A missing location survives exactly when it is not an indicator tag;
      in particular every ("item_<n>", tag) pair survives. */
  lemma {:induction false} DropIndicatorLocsIff(ls: seq<ReportLoc>, l: ReportLoc)
    ensures l in DropIndicatorLocs(ls) <==> l in ls && !IsIndicatorLoc(l)
    ensures l.ItemTag? ==> (l in DropIndicatorLocs(ls) <==> l in ls)
  {
    if ls != [] {
      DropIndicatorLocsIff(ls[..|ls| - 1], l);
      assert ls == ls[..|ls| - 1] + [ls[|ls| - 1]];
    }
  }

  /** A combination failure from the record validator reports the item
      label and the three tags ("item_<n>", "949$l", "949$t", "960$t"). */
  lemma {:induction false} ComboFailureConverts(n: nat, g: ShelfModels.Group)
    ensures ItemOrderErrors(ShelfModels.ComboFailure(n, g)) ==
            Ok(Copy(ShelfModels.ComboFailure(n, g), ItemTriple("item_" + NatToString(n), "949$l", "949$t", "960$t")))
  {
    ShelfTranslate.ItemComboTags();
    ShelfTranslate.OrderTags();
  }

  /** Extra inputs under "items" report one numbered tag per element. */
  lemma {:induction false} ExtraItemsNumbered(f: RawFailure, es: seq<Value>)
    requires f.loc == [Name("items")] && f.input == List(es) && |es| > 0
    ensures ExtraErrors(f) == Ok(Copy(f, TagList(Numbered("949", |es|))))
  {
    ShelfTranslate.ItemTags();
  }

  /** A failure of an item as a whole, at ("items", n), reports
      ("item_<n>", "949"), for every position n. */
  lemma {:induction false} ItemsPathTagged(f: RawFailure, n: nat)
    requires f.loc == [Name("items"), Index(n)] && f.ctx.Some?
    ensures MatchErrors(f).Ok? && MatchErrors(f).value.loc == ItemTag("item_" + NatToString(n), "949")
  {
    ShelfTranslate.ItemTags();
    assert KeyElem(f.loc) == Name("items");
  }

  /** A missing field of an item, at ("items", n, library, field), reports
      ("item_<n>", tag of the field) for every position and every field
      the catalog lists; the input becomes that path. */
  lemma {:induction false} MissingItemField(f: RawFailure, n: nat, lib: PathElem, field: string)
    requires f.loc == [Name("items"), Index(n), lib, Name(field)]
    requires ShelfTranslate.Encode(Name(field)).Ok?
    ensures MissingErrors(f) ==
            Ok(Converted(f.kind, ItemTag("item_" + NatToString(n), ShelfTranslate.Encode(Name(field)).value),
                         f.msg, PathValue(f.loc), f.ctx))
  {
    assert IsItemField(f.loc);
  }

  /** The record discriminator is not in the catalog: any failure at
      material_type makes the normaliser raise KeyError. */
  lemma {:induction false} MaterialTypeRaises(f: RawFailure)
    requires f.loc == [Name("material_type")] && f.kind != LocationCheck
    requires f.kind == ExtraForbidden ==> f.input.Str?
    ensures Convert(f) == Raised(KeyError)
  {
    ShelfTranslate.DiscriminatorRaises();
  }

  /** A failure whose type and ctx no case lists keeps its message. */
  lemma {:induction false} UnlistedKeepsMessage(f: RawFailure)
    requires f.ctx.Some? && TableMessage(f.kind, f.ctx.value) == None
    ensures MatchErrors(f).Ok? ==> MatchErrors(f).value.msg == f.msg
  {
  }

  lemma {:induction false} BarcodesUnlisted()
    ensures PatternMessage(BarcodeRL.text) == None
    ensures PatternMessage(BarcodeBL.text) == None
    ensures PatternMessage(BarcodeBPL.text) == None
  {
  }

  lemma {:induction false} VendorsUnlisted()
    ensures LiteralMessage("'EVP', 'AUXAM' or 'LEILA'") == None
  {
  }

  lemma {:induction false} AgencyUnlisted()
    ensures LiteralMessage("'43'") == None
  {
  }

  /** The per-library barcode rules are not listed (only the combined rule
      is), so an item's barcode failure is relocated to (item_n, 949$i) and
      keeps the schema's message. */
  lemma {:induction false} LibraryBarcodeKeepsMessage(f: RawFailure, p: Pattern, n: nat, lib: string)
    requires p in [BarcodeRL, BarcodeBL, BarcodeBPL]
    requires f.kind == StringPatternMismatch && f.ctx == Some(map["pattern" := p.text])
    requires f.loc == [Name("items"), Index(n), Name(lib), Name("item_barcode")]
    ensures MatchErrors(f) == Ok(Converted(f.kind, ItemTag("item_" + NatToString(n), "949$i"), f.msg, f.input, f.ctx))
  {
    ShelfTranslate.ItemTags();
    BarcodesUnlisted();
    assert TableMessage(f.kind, f.ctx.value) == PatternMessage(p.text);
  }

  /** The research vendor enumeration has three values, and the table
      lists only a two-value one, so an item's vendor failure is relocated
      to (item_n, 949$v) and keeps the schema's message. */
  lemma {:induction false} VendorKeepsMessage(f: RawFailure, n: nat)
    requires f.kind == LiteralError && f.ctx == Some(map["expected" := ExpectedText(ShelfModels.Vendors)])
    requires f.loc == [Name("items"), Index(n), Name("RL"), Name("item_vendor_code")]
    ensures MatchErrors(f) == Ok(Converted(f.kind, ItemTag("item_" + NatToString(n), "949$v"), f.msg, f.input, f.ctx))
  {
    assert ShelfTranslate.Encode(Name("item_vendor_code")) == Ok("949$v");
    ExpectedTextTriple();
    VendorsUnlisted();
    assert TableMessage(f.kind, f.ctx.value) == LiteralMessage("'EVP', 'AUXAM' or 'LEILA'");
  }

  /** The agency code is "43" and the table lists "'043'", so an item's
      agency failure is relocated to (item_n, 949$h) and keeps the schema's
      message. */
  lemma {:induction false} AgencyKeepsMessage(f: RawFailure, n: nat)
    requires f.kind == LiteralError && f.ctx == Some(map["expected" := ExpectedText(["43"])])
    requires f.loc == [Name("items"), Index(n), Name("RL"), Name("item_agency")]
    ensures MatchErrors(f) == Ok(Converted(f.kind, ItemTag("item_" + NatToString(n), "949$h"), f.msg, f.input, f.ctx))
  {
    assert ShelfTranslate.Encode(Name("item_agency")) == Ok("949$h");
    assert ExpectedText(["43"]) == "'43'";
    AgencyUnlisted();
    assert TableMessage(f.kind, f.ctx.value) == LiteralMessage("'43'");
  }

  /** The six-digit date rule's failure is reported at 980$a with the
      YYMMDD message. */
  lemma {:induction false} DateMessage(f: RawFailure)
    requires f.kind == StringPatternMismatch && f.ctx == Some(map["pattern" := SixDigits.text])
    requires f.loc == [Name("invoice_date")]
    ensures MatchErrors(f) ==
            Ok(Converted(f.kind, Tag("980$a"), "Invalid date; invoice date should be YYMMDD", f.input, f.ctx))
  {
    InvoiceDateTag();
    DateListed();
    assert TableMessage(f.kind, f.ctx.value) == PatternMessage(SixDigits.text);
    PlainFieldMatch(f);
  }

  lemma {:induction false} InvoiceDateTag()
    ensures ShelfTranslate.Encode(Name("invoice_date")) == Ok("980$a")
  {
  }

  /** A failure at a one-name path keeps its (possibly replaced) message
      and reports the name's tag. */
  lemma {:induction false} PlainFieldMatch(f: RawFailure)
    requires |f.loc| == 1 && ShelfTranslate.Encode(f.loc[0]).Ok? && f.ctx.Some?
    ensures MatchErrors(f) ==
            Ok(Converted(f.kind, Tag(ShelfTranslate.Encode(f.loc[0]).value),
                         match TableMessage(f.kind, f.ctx.value) case Some(m) => m case None => f.msg,
                         f.input, f.ctx))
  {
  }

  lemma {:induction false} DateListed()
    ensures PatternMessage(SixDigits.text) == Some("Invalid date; invoice date should be YYMMDD")
  {
  }
}

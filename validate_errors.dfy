/**
 * The report builder of the second iteration (validate/errors.py).
 *
 * Unlike the later builders, its helpers overwrite the keys of the failure
 * dict they are handed: `loc` becomes MARC tags, `input` may become the old
 * loc, `msg` may become a business message. A failure dict is therefore a
 * class here, each helper a method on it, and each method is specified by a
 * function from the raw failure to the dict's new contents and the
 * exception it raises, if any.
 *
 * The catalog the file imports (`validate.translate.RLMarcEncoding`) is not
 * part of this model; it is a parameter, and a name outside it raises
 * KeyError as `Enum[name]` does.
 */
module ValidateErrors {
  import opened Values

  /** What a dict's "loc" holds: the raw path, or one of the rewrites. */
  datatype Loc =
    | RawPath(path: Path)
    | Tag(tag: string)                                            // "949$i"
    | ItemTag(item: string, tag: string)                          // ("item_0", "949$i")
    | ItemTriple(item: string, location: string, itemType: string, orderLocation: string)
    | LocList(locs: seq<Loc>)                                     // a list of locations

  /** What a dict's "input" holds: the raw input, the old path (missing
      fields) or a summary's list of locations. */
  datatype Input = Raw(value: Value) | OldPath(path: Path) | Locs(locs: seq<Loc>)

  /** The keys of one failure dict. */
  datatype Entry = Entry(kind: ErrorType, loc: Loc, input: Input, msg: string, ctx: Option<Ctx>)

  /** The dict pydantic hands over for a raw failure. */
  function Initial(f: RawFailure): Entry
  {
    Entry(f.kind, RawPath(f.loc), Raw(f.input), f.msg, f.ctx)
  }

  /** A helper's effect: the dict's contents afterwards, and the exception
      it raised, if any (the keys it assigned before raising stay
      assigned). */
  datatype Outcome = Outcome(after: Entry, raised: Option<Exception>)

  function ItemLabel(e: PathElem): string
  {
    "item_" + ElemText(e)
  }

  predicate IsItemField(path: Path)
  {
    |path| == 4 && path[0] == Name("items")
  }

  /** The entry with its loc replaced by `loc`, or unchanged with the
      exception. */
  function Relocate(e: Entry, loc: Result<Loc>): (o: Outcome)
    ensures loc.Ok? ==> o == Outcome(e.(loc := loc.value), None)
    ensures loc.Raised? ==> o == Outcome(e, Some(loc.exception))
  {
    match loc
    case Ok(l) => Outcome(e.(loc := l), None)
    case Raised(x) => Outcome(e, Some(x))
  }

  // ---------------------------------------------------------------------
  // missing_errors

  /** The missing-field rewrite: ("item_n", tag of field) for
      ("items", n, _, field), else the tag of the first element. */
  function MissingLoc(catalog: Catalog, path: Path): Result<Loc>
  {
    if path == [] then Raised(IndexError)
    else if IsItemField(path) then
      match CatalogTag(catalog, path[3])
      case Raised(x) => Raised(x)
      case Ok(t) => Ok(ItemTag(ItemLabel(path[1]), t))
    else
      match CatalogTag(catalog, path[0])
      case Raised(x) => Raised(x)
      case Ok(t) => Ok(Tag(t))
  }

  /** `error["input"] = error["loc"]` first, then the loc rewrite. */
  function MissingStep(catalog: Catalog, f: RawFailure): Outcome
  {
    Relocate(Initial(f).(input := OldPath(f.loc)), MissingLoc(catalog, f.loc))
  }

  // ---------------------------------------------------------------------
  // extra_errors

  /** ("item_n", tag of k) for each key, in order, up to the first key
      outside the catalog. */
  function KeyLocs(catalog: Catalog, n: nat, keys: seq<string>): (r: Result<seq<Loc>>)
    ensures r.Ok? ==> |r.value| == |keys|
    ensures r.Ok? <==> forall k :: k in keys ==> k in catalog
    ensures r.Ok? ==> forall i :: 0 <= i < |keys| ==> r.value[i] == ItemTag("item_" + NatToString(n), catalog[keys[i]])
    ensures r.Raised? ==> r.exception == KeyError
  {
    if keys == [] then Ok([])
    else
      match KeyLocs(catalog, n, keys[..|keys| - 1])
      case Raised(x) => Raised(x)
      case Ok(ls) =>
        match CatalogTag(catalog, Name(keys[|keys| - 1]))
        case Raised(x) => Raised(x)
        case Ok(t) => Ok(ls + [ItemTag("item_" + NatToString(n), t)])
  }

  /** The locations of the first `n` extra items: every key of the n-th dict
      labelled "item_n"; an element that is not a dict has no `keys`. */
  function ExtraLocs(catalog: Catalog, items: seq<Value>, n: nat): Result<seq<Loc>>
    requires n <= |items|
  {
    if n == 0 then Ok([])
    else
      match ExtraLocs(catalog, items, n - 1)
      case Raised(x) => Raised(x)
      case Ok(ls) =>
        if !items[n - 1].Dict? then Raised(AttributeError)
        else
          match KeyLocs(catalog, n - 1, Keys(items[n - 1].entries))
          case Raised(x) => Raised(x)
          case Ok(ks) => Ok(ls + ks)
  }

  /** A string input names one field; any other input is iterated: a list
      of item dicts as above, a dict's keys (strings, which have no `keys`),
      and a number or None is not iterable. */
  function ExtraLoc(catalog: Catalog, path: Path, input: Value): Result<Loc>
  {
    match input
    case Str(_) =>
      if path == [] then Raised(IndexError)
      else
        (match CatalogTag(catalog, path[0])
         case Raised(x) => Raised(x)
         case Ok(t) => Ok(Tag(t)))
    case List(items) =>
      (match ExtraLocs(catalog, items, |items|)
       case Raised(x) => Raised(x)
       case Ok(ls) => Ok(LocList(ls)))
    case Dict(entries) => if entries == [] then Ok(LocList([])) else Raised(AttributeError)
    case _ => Raised(TypeError)
  }

  function ExtraStep(catalog: Catalog, f: RawFailure): Outcome
  {
    Relocate(Initial(f), ExtraLoc(catalog, f.loc, f.input))
  }

  // ---------------------------------------------------------------------
  // item_order_errors

  /** ("item_i", (tag of a, tag of b, tag of c)) for the path (i, a, b, c),
      read left to right. */
  function TripleLoc(catalog: Catalog, path: Path): Result<Loc>
  {
    if |path| < 2 then Raised(IndexError)
    else
      match CatalogTag(catalog, path[1])
      case Raised(x) => Raised(x)
      case Ok(a) =>
        if |path| < 3 then Raised(IndexError)
        else
          match CatalogTag(catalog, path[2])
          case Raised(x) => Raised(x)
          case Ok(b) =>
            if |path| < 4 then Raised(IndexError)
            else
              match CatalogTag(catalog, path[3])
              case Raised(x) => Raised(x)
              case Ok(c) => Ok(ItemTriple(ItemLabel(path[0]), a, b, c))
  }

  function ItemOrderStep(catalog: Catalog, f: RawFailure): Outcome
  {
    Relocate(Initial(f), TripleLoc(catalog, f.loc))
  }

  // ---------------------------------------------------------------------
  // match_errors

  const VendorMsg := "Invalid vendor code"
  const IdentifierMsg := "Invalid library identifier"
  const CallTagMsg := "Invalid item call tag"
  const ItemLocationMsg := "Item location does not match a valid location"
  const OrderLocationMsg := "Order location does not match a valid location"
  const AgencyMsg := "Invalid item agency code"
  const BarcodeMsg := "Invalid barcode"
  const ReCAPMsg := "Invalid ReCAP call number"
  const PriceMsg := "Invalid price; price should not include a decimal point"
  const DateMsg := "Invalid date; invoice date should be YYMMDD"
  const ItemPriceMsg := "Invalid price; item price should include a decimal point"
  const CapsMsg := "Invalid item message; message should be in all caps"

  const VendorExpected := "'EVP' or 'AUXAM'"
  const ItemLocationsExpected := "'rcmb2', 'rcmf2', 'rcmg2', 'rc2ma', 'rcmp2', 'rcph2', 'rcpm2', 'rcpt2' or 'rc2cf'"
  const OrderLocationsExpected := "'MAB', 'MAF', 'MAG', 'MAL', 'MAP', 'MAS', 'PAD', 'PAH', 'PAM', 'PAT' or 'SC'"

  const BarcodePattern := "^33433[0-9]{9}$|^33333[0-9]{9}$|^34444[0-9]{9}$"
  const ReCAPPattern := "^ReCAP 23-\\d{6}$|^ReCAP 24-\\d{6}$"
  const DigitsMin3Pattern := "^\\d{3,}$"
  const DigitsMin1Pattern := "^\\d{1,}$"
  const SixDigitsPattern := "^\\d{6}$"
  const ItemPricePattern := "^\\d{1,}\\.\\d{2}$"
  const CapsPattern := "^[^a-z]+"

  function LiteralMessage(expected: string): Option<string>
  {
    if expected == VendorExpected then Some(VendorMsg)
    else if expected == "'RL'" then Some(IdentifierMsg)
    else if expected == "'8528'" then Some(CallTagMsg)
    else if expected == ItemLocationsExpected then Some(ItemLocationMsg)
    else if expected == OrderLocationsExpected then Some(OrderLocationMsg)
    else if expected == "'43'" then Some(AgencyMsg)
    else None
  }

  function PatternMessage(pattern: string): Option<string>
  {
    if pattern == BarcodePattern then Some(BarcodeMsg)
    else if pattern == ReCAPPattern then Some(ReCAPMsg)
    else if pattern == DigitsMin3Pattern || pattern == DigitsMin1Pattern then Some(PriceMsg)
    else if pattern == SixDigitsPattern then Some(DateMsg)
    else if pattern == ItemPricePattern then Some(ItemPriceMsg)
    else if pattern == CapsPattern then Some(CapsMsg)
    else None
  }

  /** The message table, keyed on (type, ctx) alone. */
  function MatchMessage(kind: ErrorType, ctx: Ctx): Option<string>
  {
    if kind == LiteralError && "expected" in ctx then LiteralMessage(ctx["expected"])
    else if kind == StringPatternMismatch && "pattern" in ctx then PatternMessage(ctx["pattern"])
    else None
  }

  /** The match_errors rewrite: item fields as in missing_errors, a
      two-element ("items", n) path as ("item_n", tag of "items"), anything
      else the tag of the first element. */
  function MatchLoc(catalog: Catalog, path: Path): Result<Loc>
  {
    if path == [] then Raised(IndexError)
    else if IsItemField(path) then
      match CatalogTag(catalog, path[3])
      case Raised(x) => Raised(x)
      case Ok(t) => Ok(ItemTag(ItemLabel(path[1]), t))
    else if path[0] == Name("items") && |path| == 2 then
      match CatalogTag(catalog, path[0])
      case Raised(x) => Raised(x)
      case Ok(t) => Ok(ItemTag(ItemLabel(path[1]), t))
    else
      match CatalogTag(catalog, path[0])
      case Raised(x) => Raised(x)
      case Ok(t) => Ok(Tag(t))
  }

  /** The loc is rewritten first; then the ctx is read, and a listed
      signature replaces the message. */
  function MatchStep(catalog: Catalog, f: RawFailure): Outcome
  {
    var o := Relocate(Initial(f), MatchLoc(catalog, f.loc));
    if o.raised.Some? then o
    else if f.ctx.None? then Outcome(o.after, Some(KeyError))
    else
      match MatchMessage(f.kind, f.ctx.value)
      case None => o
      case Some(m) => Outcome(o.after.(msg := m), None)
  }

  /** The helper format_error_messages hands a failure of this type to. */
  function Step(catalog: Catalog, f: RawFailure): Outcome
  {
    if f.kind == Missing then MissingStep(catalog, f)
    else if f.kind == ExtraForbidden then ExtraStep(catalog, f)
    else if f.kind == LocationCheck then ItemOrderStep(catalog, f)
    else MatchStep(catalog, f)
  }

  // ---------------------------------------------------------------------
  // The failure dict

  class ErrorDict {
    var kind: ErrorType
    var loc: Loc
    var input: Input
    var msg: string
    var ctx: Option<Ctx>

    function Contents(): Entry
      reads this
    {
      Entry(kind, loc, input, msg, ctx)
    }

    constructor (e: Entry)
      ensures Contents() == e
    {
      kind, loc, input, msg, ctx := e.kind, e.loc, e.input, e.msg, e.ctx;
    }

    /** `missing_errors` */
    method MissingErrors(catalog: Catalog, ghost f: RawFailure) returns (raised: Option<Exception>)
      requires Contents() == Initial(f)
      modifies this
      ensures Outcome(Contents(), raised) == MissingStep(catalog, f)
    {
      var path := loc.path;
      input := OldPath(path);
      raised := None;
      if path == [] {
        raised := Some(IndexError);
      } else if IsItemField(path) {
        var t := CatalogTag(catalog, path[3]);
        if t.Raised? {
          raised := Some(t.exception);
        } else {
          loc := ItemTag(ItemLabel(path[1]), t.value);
        }
      } else {
        var t := CatalogTag(catalog, path[0]);
        if t.Raised? {
          raised := Some(t.exception);
        } else {
          loc := Tag(t.value);
        }
      }
    }

    /** `extra_errors`: a string input names its field; otherwise one
        ("item_n", tag) per key of the n-th item, n counting from 0. */
    method ExtraErrors(catalog: Catalog, ghost f: RawFailure) returns (raised: Option<Exception>)
      requires Contents() == Initial(f)
      modifies this
      ensures Outcome(Contents(), raised) == ExtraStep(catalog, f)
    {
      var path := loc.path;
      raised := None;
      match input.value {
        case Str(_) =>
          if path == [] {
            raised := Some(IndexError);
          } else {
            var t := CatalogTag(catalog, path[0]);
            if t.Raised? {
              raised := Some(t.exception);
            } else {
              loc := Tag(t.value);
            }
          }
        case List(items) =>
          var l := ExtraItemLocs(catalog, items);
          if l.Raised? {
            raised := Some(l.exception);
          } else {
            loc := LocList(l.value);
          }
        case Dict(entries) =>
          if entries == [] {
            loc := LocList([]);
          } else {
            raised := Some(AttributeError);
          }
        case Null =>
          raised := Some(TypeError);
        case Int(_) =>
          raised := Some(TypeError);
      }
    }

    /** `item_order_errors` */
    method ItemOrderErrors(catalog: Catalog, ghost f: RawFailure) returns (raised: Option<Exception>)
      requires Contents() == Initial(f)
      modifies this
      ensures Outcome(Contents(), raised) == ItemOrderStep(catalog, f)
    {
      var l := TripleLoc(catalog, loc.path);
      if l.Raised? {
        raised := Some(l.exception);
      } else {
        loc := l.value;
        raised := None;
      }
    }

    /** `match_errors` */
    method MatchErrors(catalog: Catalog, ghost f: RawFailure) returns (raised: Option<Exception>)
      requires Contents() == Initial(f)
      modifies this
      ensures Outcome(Contents(), raised) == MatchStep(catalog, f)
    {
      var l := MatchLoc(catalog, loc.path);
      if l.Raised? {
        return Some(l.exception);
      }
      loc := l.value;
      if ctx.None? {
        return Some(KeyError);
      }
      var m := MatchMessage(kind, ctx.value);
      if m.Some? {
        msg := m.value;
      }
      raised := None;
    }
  }

  /** The inner loop of extra_errors: ("item_n", tag) for each key of the
      n-th item, in order. */
  method ItemKeyLocs(catalog: Catalog, n: nat, keys: seq<string>) returns (r: Result<seq<Loc>>)
    ensures r == KeyLocs(catalog, n, keys)
  {
    var added: seq<Loc> := [];
    var j := 0;
    while j < |keys|
      invariant j <= |keys|
      invariant KeyLocs(catalog, n, keys[..j]) == Ok(added)
    {
      assert keys[..j + 1][..j] == keys[..j];
      var t := CatalogTag(catalog, Name(keys[j]));
      if t.Raised? {
        KeyLocsRaisedPersists(catalog, n, keys, j + 1);
        return Raised(t.exception);
      }
      added := added + [ItemTag("item_" + NatToString(n), t.value)];
      j := j + 1;
    }
    assert keys[..j] == keys;
    r := Ok(added);
  }

  /** The outer loop of extra_errors: the item counter n runs from 0, and
      each item's key locations are appended. */
  method ExtraItemLocs(catalog: Catalog, items: seq<Value>) returns (r: Result<seq<Loc>>)
    ensures r == ExtraLocs(catalog, items, |items|)
  {
    var extraFields: seq<Loc> := [];
    var n := 0;
    while n < |items|
      invariant n <= |items|
      invariant ExtraLocs(catalog, items, n) == Ok(extraFields)
    {
      if !items[n].Dict? {
        ExtraLocsRaisedPersists(catalog, items, n + 1, |items|);
        return Raised(AttributeError);
      }
      var ks := ItemKeyLocs(catalog, n, Keys(items[n].entries));
      if ks.Raised? {
        ExtraLocsRaisedPersists(catalog, items, n + 1, |items|);
        return Raised(ks.exception);
      }
      extraFields := extraFields + ks.value;
      n := n + 1;
    }
    r := Ok(extraFields);
  }

  lemma {:induction false} KeyLocsRaisedPersists(catalog: Catalog, n: nat, keys: seq<string>, m: nat)
    requires m <= |keys| && KeyLocs(catalog, n, keys[..m]).Raised?
    ensures KeyLocs(catalog, n, keys) == KeyLocs(catalog, n, keys[..m])
    decreases |keys| - m
  {
    if m < |keys| {
      assert keys[..m + 1][..m] == keys[..m];
      KeyLocsRaisedPersists(catalog, n, keys, m + 1);
    } else {
      assert keys[..m] == keys;
    }
  }

  lemma {:induction false} ExtraLocsRaisedPersists(catalog: Catalog, items: seq<Value>, m: nat, n: nat)
    requires m <= n <= |items| && ExtraLocs(catalog, items, m).Raised?
    ensures ExtraLocs(catalog, items, n) == ExtraLocs(catalog, items, m)
  {
    if m < n {
      ExtraLocsRaisedPersists(catalog, items, m, n - 1);
    }
  }

  // ---------------------------------------------------------------------
  // format_error_messages

  /** The lists the loop appends to: the dicts kept as errors (by their
      contents), and the missing and extra locations. */
  datatype Lists = Lists(errors: seq<Entry>, missing: seq<Loc>, extra: seq<Loc>)

  /** A string extra loc is appended; a list is appended element by
      element. */
  function Flatten(l: Loc): seq<Loc>
  {
    match l
    case Tag(_) => [l]
    case LocList(ls) => ls
    case _ => []
  }

  function Place(ls: Lists, e: Entry): Lists
  {
    if e.kind == Missing then ls.(missing := ls.missing + [e.loc])
    else if e.kind == ExtraForbidden then ls.(extra := ls.extra + Flatten(e.loc))
    else ls.(errors := ls.errors + [e])
  }

  /** What the helpers do to each failure, in order. */
  function Steps(catalog: Catalog, fs: seq<RawFailure>): (outs: seq<Outcome>)
    ensures |outs| == |fs|
    ensures forall k {:trigger Step(catalog, fs[k])} :: 0 <= k < |fs| ==> outs[k] == Step(catalog, fs[k])
  {
    if fs == [] then [] else Steps(catalog, fs[..|fs| - 1]) + [Step(catalog, fs[|fs| - 1])]
  }

  /** The lists after the first `n` outcomes, or the first exception. */
  function Gather(outs: seq<Outcome>, n: nat): Result<Lists>
    requires n <= |outs|
  {
    if n == 0 then Ok(Lists([], [], []))
    else
      match Gather(outs, n - 1)
      case Raised(x) => Raised(x)
      case Ok(ls) =>
        if outs[n - 1].raised.Some? then Raised(outs[n - 1].raised.value) else Ok(Place(ls, outs[n - 1].after))
  }

  const MissingSuffix := " missing field/subfield(s)"
  const ExtraSuffix := " extra field/subfield(s)"

  function Summary(kind: ErrorType, suffix: string, locs: seq<Loc>): Entry
  {
    Entry(kind, LocList(locs), Locs(locs), NatToString(|locs|) + suffix, None)
  }

  function Report(ls: Lists): seq<Entry>
  {
    ls.errors
    + (if |ls.missing| > 0 then [Summary(Missing, MissingSuffix, ls.missing)] else [])
    + (if |ls.extra| > 0 then [Summary(ExtraForbidden, ExtraSuffix, ls.extra)] else [])
  }

  function FormatSpec(catalog: Catalog, fs: seq<RawFailure>): Result<seq<Entry>>
  {
    var outs := Steps(catalog, fs);
    match Gather(outs, |outs|)
    case Raised(x) => Raised(x)
    case Ok(ls) => Ok(Report(ls))
  }

  function Contents(ds: seq<ErrorDict>): (es: seq<Entry>)
    reads ds
    ensures |es| == |ds| && forall k :: 0 <= k < |ds| ==> es[k] == ds[k].Contents()
  {
    if ds == [] then [] else Contents(ds[..|ds| - 1]) + [ds[|ds| - 1].Contents()]
  }

  lemma {:induction false} GatherRaisedPersists(outs: seq<Outcome>, m: nat, n: nat)
    requires m <= n <= |outs| && Gather(outs, m).Raised?
    ensures Gather(outs, n) == Gather(outs, m)
  {
    if m < n {
      GatherRaisedPersists(outs, m, n - 1);
    }
  }

  lemma {:induction false} GatherNext(outs: seq<Outcome>, i: nat, ls: Lists, e: Entry)
    requires i < |outs| && Gather(outs, i) == Ok(ls) && outs[i] == Outcome(e, None)
    ensures Gather(outs, i + 1) == Ok(Place(ls, e))
  {
  }

  /** The loop body: the dict goes to the helper its type selects. */
  method Dispatch(catalog: Catalog, d: ErrorDict, fs: seq<RawFailure>, i: nat, ghost outs: seq<Outcome>)
    returns (raised: Option<Exception>)
    requires i < |fs| == |outs| && d.Contents() == Initial(fs[i])
    requires forall k {:trigger Step(catalog, fs[k])} :: 0 <= k < |fs| ==> outs[k] == Step(catalog, fs[k])
    modifies d
    ensures Outcome(d.Contents(), raised) == outs[i]
  {
    assert outs[i] == Step(catalog, fs[i]);
    if d.kind == Missing {
      raised := d.MissingErrors(catalog, fs[i]);
    } else if d.kind == ExtraForbidden {
      raised := d.ExtraErrors(catalog, fs[i]);
    } else if d.kind == LocationCheck {
      raised := d.ItemOrderErrors(catalog, fs[i]);
    } else {
      raised := d.MatchErrors(catalog, fs[i]);
    }
  }

  /** `acc` with every element of `ls` appended, one at a time. */
  method AppendEach(acc: seq<Loc>, ls: seq<Loc>) returns (r: seq<Loc>)
    ensures r == acc + ls
  {
    r := acc;
    var j := 0;
    while j < |ls|
      invariant j <= |ls|
      invariant r == acc + ls[..j]
    {
      r := r + [ls[j]];
      j := j + 1;
    }
    assert ls[..j] == ls;
  }

  /** One converted dict placed by its type: a missing loc and the
      (flattened) extra locs are collected, anything else is kept. */
  method Absorb(d: ErrorDict, errors: seq<ErrorDict>, missingFields: seq<Loc>, extraFields: seq<Loc>)
    returns (errors': seq<ErrorDict>, missingFields': seq<Loc>, extraFields': seq<Loc>)
    ensures errors' == if d.kind == Missing || d.kind == ExtraForbidden then errors else errors + [d]
    ensures missingFields' == if d.kind == Missing then missingFields + [d.loc] else missingFields
    ensures extraFields' == if d.kind == ExtraForbidden then extraFields + Flatten(d.loc) else extraFields
  {
    errors', missingFields', extraFields' := errors, missingFields, extraFields;
    if d.kind == Missing {
      missingFields' := missingFields + [d.loc];
    } else if d.kind == ExtraForbidden {
      if d.loc.Tag? {
        extraFields' := extraFields + [d.loc];
      } else if d.loc.LocList? {
        extraFields' := AppendEach(extraFields, d.loc.locs);
      }
    } else {
      errors' := errors + [d];
    }
  }

  /** The dicts kept so far hold the errors of `ls`, and the location
      lists are its missing and extra lists. */
  ghost predicate Mirrors(errors: seq<ErrorDict>, ls: Lists, missingFields: seq<Loc>, extraFields: seq<Loc>)
    reads errors
  {
    && |errors| == |ls.errors| && (forall j :: 0 <= j < |errors| ==> errors[j].Contents() == ls.errors[j])
    && ls.missing == missingFields && ls.extra == extraFields
  }

  /** One pass of the loop: a dict for failure `i`, converted, then kept or
      its locations collected. */
  method ConvertOne(catalog: Catalog, fs: seq<RawFailure>, i: nat, ghost outs: seq<Outcome>, ghost ls: Lists,
                    errors: seq<ErrorDict>, missingFields: seq<Loc>, extraFields: seq<Loc>)
    returns (raised: Option<Exception>, errors': seq<ErrorDict>, missingFields': seq<Loc>, extraFields': seq<Loc>,
             ghost ls': Lists)
    requires i < |fs| == |outs|
    requires forall k {:trigger Step(catalog, fs[k])} :: 0 <= k < |fs| ==> outs[k] == Step(catalog, fs[k])
    requires Gather(outs, i) == Ok(ls) && Mirrors(errors, ls, missingFields, extraFields)
    ensures raised.Some? ==> Gather(outs, i + 1) == Raised(raised.value)
    ensures raised.None? ==> Gather(outs, i + 1) == Ok(ls') && Mirrors(errors', ls', missingFields', extraFields')
  {
    var d := new ErrorDict(Initial(fs[i]));
    raised := Dispatch(catalog, d, fs, i, outs);
    if raised.Some? {
      return raised, errors, missingFields, extraFields, ls;
    }
    GatherNext(outs, i, ls, d.Contents());
    ls' := Place(ls, d.Contents());
    errors', missingFields', extraFields' := Absorb(d, errors, missingFields, extraFields);
  }

  /** The loop of format_error_messages: the dict of each failure is
      converted in place, then kept as an error or its locations collected. */
  method ConvertAll(catalog: Catalog, fs: seq<RawFailure>, ghost outs: seq<Outcome>)
    returns (r: Result<()>, errors: seq<ErrorDict>, missingFields: seq<Loc>, extraFields: seq<Loc>)
    requires |outs| == |fs|
    requires forall k {:trigger Step(catalog, fs[k])} :: 0 <= k < |fs| ==> outs[k] == Step(catalog, fs[k])
    ensures r.Ok? <==> Gather(outs, |outs|).Ok?
    ensures r.Ok? ==> Gather(outs, |outs|) == Ok(Lists(Contents(errors), missingFields, extraFields))
  {
    errors, missingFields, extraFields := [], [], [];
    ghost var ls := Lists([], [], []);
    var i := 0;
    while i < |fs|
      invariant i <= |fs|
      invariant Gather(outs, i) == Ok(ls) && Mirrors(errors, ls, missingFields, extraFields)
    {
      var raised;
      raised, errors, missingFields, extraFields, ls := ConvertOne(catalog, fs, i, outs, ls, errors, missingFields, extraFields);
      if raised.Some? {
        GatherRaisedPersists(outs, i + 1, |outs|);
        return Raised(raised.value), errors, missingFields, extraFields;
      }
      i := i + 1;
    }
    assert Contents(errors) == ls.errors;
    r := Ok(());
  }

  lemma {:induction false} ContentsAppend(ds: seq<ErrorDict>, d: ErrorDict)
    ensures Contents(ds + [d]) == Contents(ds) + [d.Contents()]
  {
    assert (ds + [d])[..|ds|] == ds;
  }

  /** One summary: a fresh dict appended after the given ones. */
  method AppendSummary(ds: seq<ErrorDict>, kind: ErrorType, suffix: string, locs: seq<Loc>)
    returns (longer: seq<ErrorDict>)
    ensures Contents(longer) == old(Contents(ds)) + [Summary(kind, suffix, locs)]
  {
    var s := new ErrorDict(Summary(kind, suffix, locs));
    ContentsAppend(ds, s);
    longer := ds + [s];
  }

  /** The summaries: a fresh dict for the missing locations, then one for
      the extra locations, each only when its list is not empty. */
  method AppendSummaries(errors: seq<ErrorDict>, missingFields: seq<Loc>, extraFields: seq<Loc>)
    returns (report: seq<ErrorDict>)
    ensures Contents(report) == Report(Lists(old(Contents(errors)), missingFields, extraFields))
  {
    ghost var kept := Contents(errors);
    ghost var withMissing := kept + (if |missingFields| > 0 then [Summary(Missing, MissingSuffix, missingFields)] else []);
    report := errors;
    if |missingFields| > 0 {
      report := AppendSummary(report, Missing, MissingSuffix, missingFields);
    }
    assert Contents(report) == withMissing;
    if |extraFields| > 0 {
      report := AppendSummary(report, ExtraForbidden, ExtraSuffix, extraFields);
    }
  }

  /** `format_error_messages`: the failure dicts are converted in place, and
      the report lists the dicts kept as errors followed by a fresh summary
      dict for each non-empty location list. */
  method FormatErrorMessages(catalog: Catalog, fs: seq<RawFailure>) returns (r: Result<seq<ErrorDict>>)
    ensures r.Ok? <==> FormatSpec(catalog, fs).Ok?
    ensures r.Ok? ==> Contents(r.value) == FormatSpec(catalog, fs).value
  {
    ghost var outs := Steps(catalog, fs);
    var status, errors, missingFields, extraFields := ConvertAll(catalog, fs, outs);
    if status.Raised? {
      return Raised(status.exception);
    }
    var report := AppendSummaries(errors, missingFields, extraFields);
    r := Ok(report);
  }

  // ---------------------------------------------------------------------
  // Properties

  /** Every helper keeps the failure's type. */
  lemma {:induction false} StepKeepsKind(catalog: Catalog, f: RawFailure)
    ensures Step(catalog, f).after.kind == f.kind
  {
    if f.kind == Missing {
      assert MissingStep(catalog, f).after.kind == f.kind;
    } else if f.kind == ExtraForbidden {
      assert ExtraStep(catalog, f).after.kind == f.kind;
    } else if f.kind == LocationCheck {
      assert ItemOrderStep(catalog, f).after.kind == f.kind;
    } else {
      assert MatchStep(catalog, f).after.kind == f.kind;
    }
  }

  /** Each converted failure contributes to exactly one of the errors, the
      missing list and the extra list. */
  lemma {:induction false} GatherBuckets(catalog: Catalog, fs: seq<RawFailure>, n: nat)
    requires n <= |fs| && Gather(Steps(catalog, fs), n).Ok?
    ensures var ls := Gather(Steps(catalog, fs), n).value;
            && |ls.missing| == KindCount(fs, n, Missing)
            && |ls.errors| + KindCount(fs, n, Missing) + KindCount(fs, n, ExtraForbidden) == n
  {
    if n > 0 {
      var outs := Steps(catalog, fs);
      GatherBuckets(catalog, fs, n - 1);
      assert outs[n - 1] == Step(catalog, fs[n - 1]);
      StepKeepsKind(catalog, fs[n - 1]);
    }
  }

  /** The report has one dict per failure that is neither missing nor extra,
      plus one summary per non-empty location list. */
  lemma {:induction false} ReportLength(catalog: Catalog, fs: seq<RawFailure>)
    requires FormatSpec(catalog, fs).Ok?
    ensures var m := KindCount(fs, |fs|, Missing);
            var ls := Gather(Steps(catalog, fs), |fs|).value;
            |FormatSpec(catalog, fs).value|
              == |fs| - m - KindCount(fs, |fs|, ExtraForbidden) + (if m > 0 then 1 else 0) + (if |ls.extra| > 0 then 1 else 0)
  {
    GatherBuckets(catalog, fs, |fs|);
  }

  /** The summaries come after every kept dict, missing before extra. */
  lemma {:induction false} SummariesAfterErrors(ls: Lists)
    requires |ls.missing| > 0 && |ls.extra| > 0
    ensures Report(ls) == ls.errors + [Summary(Missing, MissingSuffix, ls.missing), Summary(ExtraForbidden, ExtraSuffix, ls.extra)]
  {
  }

  /** No failures, no report. */
  lemma {:induction false} NoFailuresEmptyReport(catalog: Catalog)
    ensures FormatSpec(catalog, []) == Ok([])
  {
    assert Steps(catalog, []) == [];
    assert Report(Lists([], [], [])) == [];
  }

  /** How many keys the extra items carry (each must be a dict). */
  function KeyTotal(items: seq<Value>, n: nat): nat
    requires n <= |items|
  {
    if n == 0 then 0
    else KeyTotal(items, n - 1) + if items[n - 1].Dict? then |Keys(items[n - 1].entries)| else 0
  }

  /** extra_errors emits one location per key of every extra item. */
  lemma {:induction false} ExtraLocsCount(catalog: Catalog, items: seq<Value>, n: nat)
    requires n <= |items| && ExtraLocs(catalog, items, n).Ok?
    ensures |ExtraLocs(catalog, items, n).value| == KeyTotal(items, n)
  {
    if n > 0 {
      ExtraLocsCount(catalog, items, n - 1);
    }
  }

  /** extra_errors' outer loop completes exactly when every extra item is a
      dict whose keys are all in the catalog; otherwise it raises
      AttributeError (an item without `keys`) or KeyError (an unlisted key). */
  lemma {:induction false} ExtraLocsOkIff(catalog: Catalog, items: seq<Value>, n: nat)
    requires n <= |items|
    ensures ExtraLocs(catalog, items, n).Ok? <==>
              forall j :: 0 <= j < n ==> items[j].Dict? && forall k :: k in Keys(items[j].entries) ==> k in catalog
    ensures ExtraLocs(catalog, items, n).Raised? ==>
              ExtraLocs(catalog, items, n).exception in {AttributeError, KeyError}
  {
    if n > 0 {
      ExtraLocsOkIff(catalog, items, n - 1);
    }
  }

  /** Key i of extra item j is reported as ("item_j", its tag), at position
      KeyTotal(items, j) + i: the items in order, each item's keys in order. */
  lemma {:induction false} ExtraLocsAt(catalog: Catalog, items: seq<Value>, n: nat, j: nat, i: nat)
    requires n <= |items| && ExtraLocs(catalog, items, n).Ok?
    requires j < n && items[j].Dict? && i < |Keys(items[j].entries)|
    ensures KeyTotal(items, j) + i < |ExtraLocs(catalog, items, n).value|
    ensures Keys(items[j].entries)[i] in catalog
    ensures ExtraLocs(catalog, items, n).value[KeyTotal(items, j) + i]
            == ItemTag("item_" + NatToString(j), catalog[Keys(items[j].entries)[i]])
  {
    ExtraLocsOkIff(catalog, items, n);
    var ls := ExtraLocs(catalog, items, n - 1).value;
    var ks := KeyLocs(catalog, n - 1, Keys(items[n - 1].entries)).value;
    assert ExtraLocs(catalog, items, n).value == ls + ks;
    ExtraLocsCount(catalog, items, n - 1);
    if j < n - 1 {
      ExtraLocsAt(catalog, items, n - 1, j, i);
    }
  }

  /** Conversely, every reported location is key i of some extra item j. */
  lemma {:induction false} ExtraLocsMember(catalog: Catalog, items: seq<Value>, n: nat, p: nat) returns (j: nat, i: nat)
    requires n <= |items| && ExtraLocs(catalog, items, n).Ok? && p < |ExtraLocs(catalog, items, n).value|
    ensures j < n && items[j].Dict? && i < |Keys(items[j].entries)| && p == KeyTotal(items, j) + i
    ensures Keys(items[j].entries)[i] in catalog
    ensures ExtraLocs(catalog, items, n).value[p] == ItemTag("item_" + NatToString(j), catalog[Keys(items[j].entries)[i]])
  {
    ExtraLocsOkIff(catalog, items, n);
    var ls := ExtraLocs(catalog, items, n - 1).value;
    var ks := KeyLocs(catalog, n - 1, Keys(items[n - 1].entries)).value;
    assert ExtraLocs(catalog, items, n).value == ls + ks;
    ExtraLocsCount(catalog, items, n - 1);
    if p < |ls| {
      j, i := ExtraLocsMember(catalog, items, n - 1, p);
    } else {
      j, i := n - 1, p - |ls|;
    }
  }

  /** extra_errors on its input: a string names one field, reported as the
      tag of the path's first element; a list is reported as the located
      keys of its items; an empty dict gives an empty list, a non-empty one
      AttributeError (its keys are strings); anything else is not iterable. */
  lemma {:induction false} ExtraInputShapes(catalog: Catalog, f: RawFailure)
    ensures f.input.Str? && f.loc == [] ==> ExtraStep(catalog, f) == Outcome(Initial(f), Some(IndexError))
    ensures f.input.Str? && f.loc != [] ==>
              ExtraStep(catalog, f) ==
              if f.loc[0].Name? && f.loc[0].name in catalog
              then Outcome(Initial(f).(loc := Tag(catalog[f.loc[0].name])), None)
              else Outcome(Initial(f), Some(KeyError))
    ensures f.input.List? ==>
              ExtraStep(catalog, f) ==
              match ExtraLocs(catalog, f.input.elems, |f.input.elems|)
              case Ok(ls) => Outcome(Initial(f).(loc := LocList(ls)), None)
              case Raised(x) => Outcome(Initial(f), Some(x))
    ensures f.input.Dict? ==>
              ExtraStep(catalog, f) ==
              if f.input.entries == [] then Outcome(Initial(f).(loc := LocList([])), None)
              else Outcome(Initial(f), Some(AttributeError))
    ensures !f.input.Str? && !f.input.List? && !f.input.Dict? ==> ExtraStep(catalog, f) == Outcome(Initial(f), Some(TypeError))
  {
  }

  /** missing_errors' rewrite: an empty path raises IndexError; an item
      field ("items", n, _, field) becomes ("item_n", tag of field); any
      other path becomes the tag of its first element; an unlisted name
      raises KeyError. */
  lemma {:induction false} MissingLocCases(catalog: Catalog, path: Path)
    ensures path == [] ==> MissingLoc(catalog, path) == Raised(IndexError)
    ensures IsItemField(path) ==>
              MissingLoc(catalog, path) ==
              if path[3].Name? && path[3].name in catalog then Ok(ItemTag(ItemLabel(path[1]), catalog[path[3].name]))
              else Raised(KeyError)
    ensures path != [] && !IsItemField(path) ==>
              MissingLoc(catalog, path) ==
              if path[0].Name? && path[0].name in catalog then Ok(Tag(catalog[path[0].name])) else Raised(KeyError)
  {
  }

  /** match_errors' rewrite: as missing_errors for an item field, ("item_n",
      tag of "items") for a two-element ("items", n) path, else the tag of
      the first element; an unlisted name raises KeyError. */
  lemma {:induction false} MatchLocCases(catalog: Catalog, path: Path)
    ensures path == [] ==> MatchLoc(catalog, path) == Raised(IndexError)
    ensures IsItemField(path) ==>
              MatchLoc(catalog, path) ==
              if path[3].Name? && path[3].name in catalog then Ok(ItemTag(ItemLabel(path[1]), catalog[path[3].name]))
              else Raised(KeyError)
    ensures |path| == 2 && path[0] == Name("items") ==>
              MatchLoc(catalog, path) ==
              if "items" in catalog then Ok(ItemTag(ItemLabel(path[1]), catalog["items"])) else Raised(KeyError)
    ensures path != [] && !IsItemField(path) && !(|path| == 2 && path[0] == Name("items")) ==>
              MatchLoc(catalog, path) ==
              if path[0].Name? && path[0].name in catalog then Ok(Tag(catalog[path[0].name])) else Raised(KeyError)
  {
  }

  /** missing_errors sets the input to the old path before it can raise. */
  lemma {:induction false} MissingInputIsOldPath(catalog: Catalog, f: RawFailure)
    ensures MissingStep(catalog, f).after.input == OldPath(f.loc)
    ensures MissingStep(catalog, f).after.msg == f.msg
  {
  }

  /** A missing item field becomes ("item_n", tag of the field). */
  lemma {:induction false} MissingItemField(catalog: Catalog, f: RawFailure, n: nat, lib: string, field: string)
    requires f.loc == [Name("items"), Index(n), Name(lib), Name(field)] && field in catalog
    ensures MissingStep(catalog, f) ==
            Outcome(Entry(f.kind, ItemTag("item_" + NatToString(n), catalog[field]), OldPath(f.loc), f.msg, f.ctx), None)
  {
    assert IsItemField(f.loc);
  }

  /** The combination failure (i, a, b, c) becomes ("item_i", (tags)). */
  lemma {:induction false} ItemOrderNested(catalog: Catalog, f: RawFailure, i: nat, a: string, b: string, c: string)
    requires f.loc == [Index(i), Name(a), Name(b), Name(c)] && a in catalog && b in catalog && c in catalog
    ensures ItemOrderStep(catalog, f) ==
            Outcome(Initial(f).(loc := ItemTriple("item_" + NatToString(i), catalog[a], catalog[b], catalog[c])), None)
  {
  }

  /** A two-element ("items", n) path is tagged with the tag of "items". */
  lemma {:induction false} ItemsPathTagged(catalog: Catalog, path: Path, n: nat)
    requires path == [Name("items"), Index(n)] && "items" in catalog
    ensures MatchLoc(catalog, path) == Ok(ItemTag("item_" + NatToString(n), catalog["items"]))
  {
    assert !IsItemField(path);
  }

  /** The agency literal gets its message; the loc is rewritten as well. */
  lemma {:induction false} AgencyMessage(catalog: Catalog, f: RawFailure, field: string)
    requires f.kind == LiteralError && f.loc == [Name(field)] && field in catalog && field != "items"
    requires f.ctx.Some? && "expected" in f.ctx.value && f.ctx.value["expected"] == "'43'"
    ensures MatchStep(catalog, f) == Outcome(Initial(f).(loc := Tag(catalog[field]), msg := AgencyMsg), None)
  {
    assert !IsItemField(f.loc);
  }

  /** An unlisted signature keeps its message; only the loc changes. */
  lemma {:induction false} UnmatchedKeepsMessage(catalog: Catalog, f: RawFailure)
    requires f.ctx.Some? && MatchMessage(f.kind, f.ctx.value).None?
    requires MatchLoc(catalog, f.loc).Ok?
    ensures MatchStep(catalog, f) == Outcome(Initial(f).(loc := MatchLoc(catalog, f.loc).value), None)
  {
  }

  /** A failure without ctx that reaches match_errors raises KeyError after
      its loc has been rewritten. */
  lemma {:induction false} NoCtxRaisesAfterRelocating(catalog: Catalog, f: RawFailure)
    requires f.ctx.None? && MatchLoc(catalog, f.loc).Ok?
    ensures MatchStep(catalog, f) == Outcome(Initial(f).(loc := MatchLoc(catalog, f.loc).value), Some(KeyError))
  {
  }

  /** A string-typed field given a number (pydantic's string_type failure
      carries no ctx) makes the whole report raise. */
  lemma {:induction false} StringTypeFailureRaises(catalog: Catalog, f: RawFailure, field: string)
    requires f.kind == StringType && f.ctx.None? && f.loc == [Name(field)] && field in catalog && field != "items"
    ensures FormatSpec(catalog, [f]) == Raised(KeyError)
  {
    assert !IsItemField(f.loc);
    assert Step(catalog, f).raised == Some(KeyError);
    assert [f][..0] == [];
    var outs := Steps(catalog, [f]);
    assert outs == [Step(catalog, f)];
    assert Gather(outs, 1) == Raised(KeyError);
  }
}

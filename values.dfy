/**
 * The values the validators and error normalisers exchange: the parsed record
 * input (a Python mapping of field name to string, list or nested mapping),
 * the path of a raw validation failure, and the raw failure itself
 * (pydantic's error details: type, loc, msg, input, ctx).
 *
 * Also the few Python string operations the normalisers use: `str(n)` of a
 * natural number, `str()` of a path element and `str.title()`.
 */
module Values {

  datatype Option<+T> = None | Some(value: T)

  /** A computation that either yields a value or raises a Python exception,
      named by its class (`KeyError`, `IndexError`, ...). */
  datatype Result<+T> = Ok(value: T) | Raised(exception: Exception)

  /** The Python exceptions the modelled code can raise. */
  datatype Exception = KeyError | IndexError | TypeError | AttributeError

  /** One element of a failure location: a field name or a list index. */
  datatype PathElem = Name(name: string) | Index(index: nat)

  type Path = seq<PathElem>

  /** A Python value as it occurs in record input and in failure inputs.
      Tuples and lists are both `List`; a dict keeps its insertion order. */
  datatype Value =
    | Null
    | Str(s: string)
    | Int(n: int)
    | List(elems: seq<Value>)
    | Dict(entries: seq<(string, Value)>)

  /** pydantic's `ctx` entry: "expected" for literal errors, "pattern" for
      pattern mismatches, "discriminator" etc. for tagged unions. */
  type Ctx = map<string, string>

  /** The "type" of a failure: pydantic's own error types, and the custom
      types the record validators raise. */
  datatype ErrorType =
    | Missing | ExtraForbidden | StringType | LiteralError | StringPatternMismatch
    | ModelType | ModelAttributesType | ListType | UnionTagNotFound | UnionTagInvalid
    | LocationCheck            // "Item/Order location check"
    | Custom(name: string)     // any other custom type, by its name

  /** The type's name as `error["type"]` holds it. */
  function TypeName(t: ErrorType): string
  {
    match t
    case Missing => "missing"
    case ExtraForbidden => "extra_forbidden"
    case StringType => "string_type"
    case LiteralError => "literal_error"
    case StringPatternMismatch => "string_pattern_mismatch"
    case ModelType => "model_type"
    case ModelAttributesType => "model_attributes_type"
    case ListType => "list_type"
    case UnionTagNotFound => "union_tag_not_found"
    case UnionTagInvalid => "union_tag_invalid"
    case LocationCheck => "Item/Order location check"
    case Custom(name) => name
  }

  /** The type a failure whose `error["type"]` is `name` has: a built-in
      type for its own name, a custom type otherwise. */
  function KindOf(name: string): (t: ErrorType)
    ensures TypeName(t) == name
  {
    match name
    case "missing" => Missing
    case "extra_forbidden" => ExtraForbidden
    case "string_type" => StringType
    case "literal_error" => LiteralError
    case "string_pattern_mismatch" => StringPatternMismatch
    case "model_type" => ModelType
    case "model_attributes_type" => ModelAttributesType
    case "list_type" => ListType
    case "union_tag_not_found" => UnionTagNotFound
    case "union_tag_invalid" => UnionTagInvalid
    case "Item/Order location check" => LocationCheck
    case _ => Custom(name)
  }

  /** A custom type never spells a built-in name, so telling types apart
      by constructor is telling them apart by name. */
  predicate Canonical(t: ErrorType)
  {
    KindOf(TypeName(t)) == t
  }

  /** Between canonical types, comparing names (as the normalisers do) is
      comparing types. */
  lemma {:induction false} TypeNameInjective(a: ErrorType, b: ErrorType)
    requires Canonical(a) && Canonical(b)
    ensures TypeName(a) == TypeName(b) <==> a == b
  {
  }

  /** One raw failure as `ValidationError.errors()` lists it; `ctx` is None
      when the failure carries no "ctx" key. */
  datatype RawFailure = RawFailure(kind: ErrorType, loc: Path, msg: string, input: Value, ctx: Option<Ctx>)

  /** How many of the first `n` failures have type `k`. */
  function KindCount(fs: seq<RawFailure>, n: nat, k: ErrorType): (c: nat)
    requires n <= |fs|
    ensures c <= n
  {
    if n == 0 then 0 else KindCount(fs, n - 1, k) + if fs[n - 1].kind == k then 1 else 0
  }

  // ---------------------------------------------------------------------
  // Dict access

  /** The keys of a dict, in insertion order. */
  function Keys(entries: seq<(string, Value)>): (ks: seq<string>)
    ensures |ks| == |entries|
    ensures forall i :: 0 <= i < |entries| ==> ks[i] == entries[i].0
  {
    if entries == [] then [] else [entries[0].0] + Keys(entries[1..])
  }

  /** A well-formed Python dict has each key once. */
  predicate UniqueKeys(entries: seq<(string, Value)>)
  {
    forall i, j :: 0 <= i < j < |entries| ==> entries[i].0 != entries[j].0
  }

  /** `key in d` */
  predicate HasKey(entries: seq<(string, Value)>, key: string)
  {
    exists i :: 0 <= i < |entries| && entries[i].0 == key
  }

  /** `d.get(key)`: the value stored under `key`, or Python's None. */
  function Get(entries: seq<(string, Value)>, key: string): (v: Value)
    ensures !HasKey(entries, key) ==> v == Null
    ensures HasKey(entries, key) ==> exists i :: 0 <= i < |entries| && entries[i] == (key, v)
  {
    if entries == [] then Null
    else if entries[0].0 == key then entries[0].1
    else Get(entries[1..], key)
  }

  /** `d[key]` for a dict stored in a `Value`: `Get` when the key is there. */
  function Lookup(entries: seq<(string, Value)>, key: string): (r: Option<Value>)
    ensures r.Some? <==> HasKey(entries, key)
    ensures r.Some? ==> r.value == Get(entries, key)
  {
    if HasKey(entries, key) then Some(Get(entries, key)) else None
  }

  // ---------------------------------------------------------------------
  // Python string conversions

  function DigitChar(d: nat): (c: char)
    requires d < 10
    ensures '0' <= c <= '9'
  {
    ['0', '1', '2', '3', '4', '5', '6', '7', '8', '9'][d]
  }

  /** `str(n)` for a natural number: its decimal digits, no leading zeros. */
  function NatToString(n: nat): (s: string)
    ensures |s| >= 1
    ensures forall i :: 0 <= i < |s| ==> '0' <= s[i] <= '9'
    ensures |s| > 1 ==> s[0] != '0'
  {
    if n < 10 then [DigitChar(n)] else NatToString(n / 10) + [DigitChar(n % 10)]
  }

  /** The value a string of decimal digits denotes. */
  function DigitsValue(s: string): nat
    requires forall i :: 0 <= i < |s| ==> '0' <= s[i] <= '9'
  {
    if s == [] then 0 else 10 * DigitsValue(s[..|s| - 1]) + (s[|s| - 1] as int - '0' as int)
  }

  lemma {:induction false} DigitCharValue(d: nat)
    requires d < 10
    ensures DigitChar(d) as int - '0' as int == d
  {
  }

  /** `str(n)` reads back as `n`: so distinct item numbers never share a label. */
  lemma {:induction false} NatToStringValue(n: nat)
    ensures DigitsValue(NatToString(n)) == n
  {
    if n < 10 {
      DigitCharValue(n);
    } else {
      var s := NatToString(n);
      assert s[..|s| - 1] == NatToString(n / 10);
      NatToStringValue(n / 10);
      DigitCharValue(n % 10);
    }
  }

  lemma {:induction false} NatToStringInjective(m: nat, n: nat)
    ensures NatToString(m) == NatToString(n) ==> m == n
  {
    NatToStringValue(m);
    NatToStringValue(n);
  }

  /** `str(e)` of a path element. */
  function ElemText(e: PathElem): string
  {
    match e
    case Name(s) => s
    case Index(i) => NatToString(i)
  }

  /** A field-name-to-MARC-tag catalog (an `RLMarcEncoding` enum whose
      file is not part of this model). */
  type Catalog = map<string, string>

  /** `RLMarcEncoding[e].value`: only a field name the catalog lists has a
      tag; a list index, or any other name, raises KeyError. */
  function CatalogTag(catalog: Catalog, e: PathElem): (r: Result<string>)
    ensures r.Ok? <==> e.Name? && e.name in catalog
    ensures r.Ok? ==> r.value == catalog[e.name]
    ensures r.Raised? ==> r.exception == KeyError
  {
    if e.Name? && e.name in catalog then Ok(catalog[e.name]) else Raised(KeyError)
  }

  /** The Python value of a path element (a str or an int). */
  function ElemValue(e: PathElem): Value
  {
    match e
    case Name(s) => Str(s)
    case Index(i) => Int(i)
  }

  /** A path as the Python tuple it is. */
  function PathValue(p: Path): (v: Value)
    ensures v.List? && |v.elems| == |p|
    ensures forall i :: 0 <= i < |p| ==> v.elems[i] == ElemValue(p[i])
  {
    List(seq(|p|, i requires 0 <= i < |p| => ElemValue(p[i])))
  }

  predicate IsUpper(c: char) { 'A' <= c <= 'Z' }
  predicate IsLower(c: char) { 'a' <= c <= 'z' }
  predicate IsCased(c: char) { IsUpper(c) || IsLower(c) }

  function ToUpper(c: char): (u: char)
    ensures IsCased(c) ==> IsUpper(u)
    ensures !IsLower(c) ==> u == c
  {
    if IsLower(c) then (c as int - 32) as char else c
  }

  function ToLower(c: char): (l: char)
    ensures IsCased(c) ==> IsLower(l)
    ensures !IsUpper(c) ==> l == c
  {
    if IsUpper(c) then (c as int + 32) as char else c
  }

  /** Python's `str.title()` on ASCII text: a letter is upper-cased when the
      character before it is not a letter, lower-cased otherwise. */
  function Title(s: string): (t: string)
    ensures |t| == |s|
    ensures forall i :: 0 <= i < |s| && !IsCased(s[i]) ==> t[i] == s[i]
    ensures |s| > 0 && IsCased(s[0]) ==> IsUpper(t[0])
    ensures forall i :: 0 < i < |s| && IsCased(s[i]) ==>
              (if IsCased(s[i - 1]) then IsLower(t[i]) else IsUpper(t[i]))
  {
    seq(|s|, i requires 0 <= i < |s| =>
      if i > 0 && IsCased(s[i - 1]) then ToLower(s[i]) else ToUpper(s[i]))
  }

  // ---------------------------------------------------------------------
  // Counting

  /** `xs.count(x)` */
  function Count<T(==)>(xs: seq<T>, x: T): (n: nat)
    ensures n <= |xs|
  {
    if xs == [] then 0 else (if xs[0] == x then 1 else 0) + Count(xs[1..], x)
  }

  lemma {:induction false} CountAppend<T>(xs: seq<T>, ys: seq<T>, x: T)
    ensures Count(xs + ys, x) == Count(xs, x) + Count(ys, x)
  {
    if xs == [] {
      assert xs + ys == ys;
    } else {
      assert (xs + ys)[1..] == xs[1..] + ys;
      CountAppend(xs[1..], ys, x);
    }
  }

  /** Two distinct values are counted in disjoint positions. */
  lemma {:induction false} CountDisjoint<T>(xs: seq<T>, x: T, y: T)
    requires x != y
    ensures Count(xs, x) + Count(xs, y) <= |xs|
  {
    if xs != [] {
      CountDisjoint(xs[1..], x, y);
    }
  }
}

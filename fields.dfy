/**
 * The per-field validation the record schemas declare, as the schema
 * library performs it: every declared field is checked in declaration order
 * and every failure is collected (nothing stops at the first one). A field
 * is required or optional (absent or None allowed) and carries either no
 * constraint, a closed enumeration or a string pattern. A schema that
 * forbids extra keys reports each undeclared key, after the declared fields,
 * in input order. Nested models and lists of tagged variants (the variant
 * chosen by a discriminator key) report with their path extended.
 *
 * The raw failures produced carry the type names, messages and ctx entries
 * the error normalisers match on.
 */
module Fields {
  import opened Values
  import opened Patterns

  datatype Check = Free | OneOf(options: seq<string>) | Shaped(pattern: Pattern)

  datatype FieldRule = FieldRule(name: string, required: bool, check: Check)

  /** One schema a discriminator value selects. */
  datatype Variant = Variant(tag: string, rules: seq<FieldRule>, forbidExtra: bool)

  function Req(name: string, check: Check): FieldRule { FieldRule(name, true, check) }

  function Opt(name: string, check: Check): FieldRule { FieldRule(name, false, check) }

  // ---------------------------------------------------------------------
  // What is accepted

  predicate ValueOk(check: Check, v: Value)
  {
    match check
    case Free => v.Str?
    case OneOf(opts) => v.Str? && v.s in opts
    case Shaped(p) => v.Str? && Matches(p, v.s)
  }

  predicate FieldOk(rule: FieldRule, d: seq<(string, Value)>)
  {
    if !HasKey(d, rule.name) then !rule.required
    else (!rule.required && Get(d, rule.name) == Null) || ValueOk(rule.check, Get(d, rule.name))
  }

  predicate Declared(rules: seq<FieldRule>, key: string)
  {
    exists i :: 0 <= i < |rules| && rules[i].name == key
  }

  /** The schema accepts the mapping: every field passes and, when extras
      are forbidden, every key is declared. */
  predicate Accepts(rules: seq<FieldRule>, forbidExtra: bool, d: seq<(string, Value)>)
  {
    && (forall i :: 0 <= i < |rules| ==> FieldOk(rules[i], d))
    && (forbidExtra ==> forall j :: 0 <= j < |d| ==> Declared(rules, d[j].0))
  }

  // ---------------------------------------------------------------------
  // The failures reported

  const RequiredMsg := "Field required"
  const StringMsg := "Input should be a valid string"
  const LiteralMsgPrefix := "Input should be "
  const PatternMsgPrefix := "String should match pattern '"
  const ExtraMsg := "Extra inputs are not permitted"
  const ModelMsgPrefix := "Input should be a valid dictionary or instance of "
  const TagNotFoundMsgPrefix := "Unable to extract tag using discriminator "
  const ExpectedTagsMsg := " does not match any of the expected tags: "
  const MappingMsg := "Input should be a valid dictionary or object to extract fields from"
  const ListMsg := "Input should be a valid list"

  function MissingFailure(loc: Path, container: Value): RawFailure
  {
    RawFailure(Missing, loc, RequiredMsg, container, None)
  }

  function CheckValue(check: Check, v: Value, loc: Path): (fs: seq<RawFailure>)
    ensures fs == [] <==> ValueOk(check, v)
    ensures |fs| <= 1
    ensures forall f :: f in fs ==> f.loc == loc && f.input == v
  {
    match check
    case Free =>
      if v.Str? then [] else [RawFailure(StringType, loc, StringMsg, v, None)]
    case OneOf(opts) =>
      if v.Str? && v.s in opts then []
      else
        var expected := ExpectedText(opts);
        [RawFailure(LiteralError, loc, LiteralMsgPrefix + expected, v, Some(map["expected" := expected]))]
    case Shaped(p) =>
      if !v.Str? then [RawFailure(StringType, loc, StringMsg, v, None)]
      else if Matches(p, v.s) then []
      else [RawFailure(StringPatternMismatch, loc, PatternMsgPrefix + p.text + "'",
                       v, Some(map["pattern" := p.text]))]
  }

  function CheckField(rule: FieldRule, d: seq<(string, Value)>, prefix: Path): (fs: seq<RawFailure>)
    ensures fs == [] <==> FieldOk(rule, d)
    ensures |fs| <= 1
    ensures forall f :: f in fs ==> f.loc == prefix + [Name(rule.name)]
  {
    match Lookup(d, rule.name)
    case None => if rule.required then [MissingFailure(prefix + [Name(rule.name)], Dict(d))] else []
    case Some(v) =>
      if !rule.required && v == Null then [] else CheckValue(rule.check, v, prefix + [Name(rule.name)])
  }

  /** Declared fields, in declaration order. */
  function CheckFields(rules: seq<FieldRule>, d: seq<(string, Value)>, prefix: Path): (fs: seq<RawFailure>)
    ensures |fs| <= |rules|
  {
    if rules == [] then [] else CheckField(rules[0], d, prefix) + CheckFields(rules[1..], d, prefix)
  }

  /** Undeclared keys, in input order. */
  function ExtraFailures(rules: seq<FieldRule>, d: seq<(string, Value)>, prefix: Path): (fs: seq<RawFailure>)
    ensures |fs| <= |d|
  {
    if d == [] then []
    else
      (if Declared(rules, d[0].0) then []
       else [RawFailure(ExtraForbidden, prefix + [Name(d[0].0)], ExtraMsg, d[0].1, None)])
      + ExtraFailures(rules, d[1..], prefix)
  }

  function Validate(rules: seq<FieldRule>, forbidExtra: bool, d: seq<(string, Value)>, prefix: Path): seq<RawFailure>
  {
    CheckFields(rules, d, prefix) + (if forbidExtra then ExtraFailures(rules, d, prefix) else [])
  }

  /** A nested model stored under `name`. */
  function CheckNested(model: string, rules: seq<FieldRule>, forbidExtra: bool,
                       d: seq<(string, Value)>, name: string, prefix: Path): seq<RawFailure>
  {
    var loc := prefix + [Name(name)];
    match Lookup(d, name)
    case None => [MissingFailure(loc, Dict(d))]
    case Some(Dict(es)) => Validate(rules, forbidExtra, es, loc)
    case Some(v) => [RawFailure(ModelType, loc, ModelMsgPrefix + model, v, None)]
  }

  function Tags(variants: seq<Variant>): (ts: seq<string>)
    ensures |ts| == |variants|
    ensures forall i :: 0 <= i < |variants| ==> ts[i] == variants[i].tag
  {
    if variants == [] then [] else [variants[0].tag] + Tags(variants[1..])
  }

  /** The first variant with the given tag. */
  function Select(variants: seq<Variant>, tag: string): (r: Option<Variant>)
    ensures r.Some? <==> tag in Tags(variants)
    ensures r.Some? ==> r.value in variants && r.value.tag == tag
  {
    if variants == [] then None
    else if variants[0].tag == tag then Some(variants[0])
    else Select(variants[1..], tag)
  }

  function TagText(v: Value): string
  {
    match v
    case Str(s) => s
    case Int(n) => if n >= 0 then NatToString(n) else "-" + NatToString(-n)
    case Null => "None"
    case _ => ""
  }

  function TagNotFound(disc: string, v: Value, loc: Path): RawFailure
  {
    RawFailure(UnionTagNotFound, loc, TagNotFoundMsgPrefix + Quote(disc),
               v, Some(map["discriminator" := Quote(disc)]))
  }

  function TagInvalid(variants: seq<Variant>, disc: string, tag: Value, v: Value, loc: Path): RawFailure
  {
    var expected := QuoteAll(Tags(variants));
    RawFailure(UnionTagInvalid, loc,
               "Input tag " + Quote(TagText(tag)) + " found using " + Quote(disc)
               + ExpectedTagsMsg + expected,
               v, Some(map["discriminator" := Quote(disc), "tag" := TagText(tag), "expected_tags" := expected]))
  }

  function NotAMapping(v: Value, loc: Path): RawFailure
  {
    RawFailure(ModelAttributesType, loc, MappingMsg, v, None)
  }

  /** One value validated against the variant its discriminator selects. */
  function CheckTagged(variants: seq<Variant>, disc: string, v: Value, loc: Path): seq<RawFailure>
  {
    if !v.Dict? then [NotAMapping(v, loc)]
    else if !HasKey(v.entries, disc) then [TagNotFound(disc, v, loc)]
    else
      var t := Get(v.entries, disc);
      if t.Str? && Select(variants, t.s).Some? then
        var variant := Select(variants, t.s).value;
        Validate(variant.rules, variant.forbidExtra, v.entries, loc + [Name(t.s)])
      else [TagInvalid(variants, disc, t, v, loc)]
  }

  predicate TaggedOk(variants: seq<Variant>, disc: string, v: Value)
  {
    && v.Dict?
    && HasKey(v.entries, disc)
    && Get(v.entries, disc).Str?
    && Select(variants, Get(v.entries, disc).s).Some?
    && var variant := Select(variants, Get(v.entries, disc).s).value;
       Accepts(variant.rules, variant.forbidExtra, v.entries)
  }

  /** A single tagged-variant field stored under `name`. */
  function CheckTaggedField(variants: seq<Variant>, disc: string, d: seq<(string, Value)>, name: string, prefix: Path): seq<RawFailure>
  {
    match Lookup(d, name)
    case None => [MissingFailure(prefix + [Name(name)], Dict(d))]
    case Some(v) => CheckTagged(variants, disc, v, prefix + [Name(name)])
  }

  /** The parts joined in order. */
  function Flatten<T>(parts: seq<seq<T>>): seq<T>
  {
    if parts == [] then [] else Flatten(parts[..|parts| - 1]) + parts[|parts| - 1]
  }

  /** The failures of each element of a list of tagged variants, the k-th
      element reporting under index k. */
  function ElemFailures(variants: seq<Variant>, disc: string, elems: seq<Value>, loc: Path): (parts: seq<seq<RawFailure>>)
    ensures |parts| == |elems|
  {
    seq(|elems|, k requires 0 <= k < |elems| => CheckTagged(variants, disc, elems[k], loc + [Index(k)]))
  }

  /** A list-of-variants field stored under `name`. */
  function CheckTaggedList(variants: seq<Variant>, disc: string, d: seq<(string, Value)>, name: string, prefix: Path): seq<RawFailure>
  {
    var loc := prefix + [Name(name)];
    match Lookup(d, name)
    case None => [MissingFailure(loc, Dict(d))]
    case Some(List(elems)) => Flatten(ElemFailures(variants, disc, elems, loc))
    case Some(v) => [RawFailure(ListType, loc, ListMsg, v, None)]
  }

  // ---------------------------------------------------------------------
  // The handler reports nothing exactly when the schema accepts

  lemma {:induction false} CheckFieldsEmpty(rules: seq<FieldRule>, d: seq<(string, Value)>, prefix: Path)
    ensures CheckFields(rules, d, prefix) == [] <==> forall i :: 0 <= i < |rules| ==> FieldOk(rules[i], d)
  {
    if rules != [] {
      CheckFieldsEmpty(rules[1..], d, prefix);
      assert forall i :: 1 <= i < |rules| ==> rules[i] == rules[1..][i - 1];
    }
  }

  lemma {:induction false} ExtraFailuresEmpty(rules: seq<FieldRule>, d: seq<(string, Value)>, prefix: Path)
    ensures ExtraFailures(rules, d, prefix) == [] <==> forall j :: 0 <= j < |d| ==> Declared(rules, d[j].0)
  {
    if d != [] {
      ExtraFailuresEmpty(rules, d[1..], prefix);
      assert forall j :: 1 <= j < |d| ==> d[j] == d[1..][j - 1];
    }
  }

  lemma {:induction false} ValidateEmpty(rules: seq<FieldRule>, forbidExtra: bool, d: seq<(string, Value)>, prefix: Path)
    ensures Validate(rules, forbidExtra, d, prefix) == [] <==> Accepts(rules, forbidExtra, d)
  {
    CheckFieldsEmpty(rules, d, prefix);
    ExtraFailuresEmpty(rules, d, prefix);
  }

  /** Every undeclared key of a mapping checked against a schema that forbids
      extras yields exactly one extra_forbidden failure at its path. */
  lemma {:induction false} ExtraReported(rules: seq<FieldRule>, d: seq<(string, Value)>, prefix: Path, j: nat)
    requires j < |d| && !Declared(rules, d[j].0)
    ensures RawFailure(ExtraForbidden, prefix + [Name(d[j].0)], ExtraMsg, d[j].1, None)
            in ExtraFailures(rules, d, prefix)
  {
    if j > 0 {
      ExtraReported(rules, d[1..], prefix, j - 1);
    }
  }

  /** Every failure of the declared fields sits at the path of one of them. */
  lemma {:induction false} CheckFieldsLocs(rules: seq<FieldRule>, d: seq<(string, Value)>, prefix: Path)
    ensures forall f :: f in CheckFields(rules, d, prefix) ==>
              exists i :: 0 <= i < |rules| && f.loc == prefix + [Name(rules[i].name)]
  {
    if rules != [] {
      CheckFieldsLocs(rules[1..], d, prefix);
      forall f | f in CheckFields(rules, d, prefix)
        ensures exists i :: 0 <= i < |rules| && f.loc == prefix + [Name(rules[i].name)]
      {
        if f in CheckField(rules[0], d, prefix) {
          assert f.loc == prefix + [Name(rules[0].name)];
        } else {
          var i :| 0 <= i < |rules[1..]| && f.loc == prefix + [Name(rules[1..][i].name)];
          assert rules[1..][i] == rules[i + 1];
        }
      }
    }
  }

  lemma {:induction false} TaggedEmpty(variants: seq<Variant>, disc: string, v: Value, loc: Path)
    ensures CheckTagged(variants, disc, v, loc) == [] <==> TaggedOk(variants, disc, v)
  {
    if v.Dict? && HasKey(v.entries, disc) && Get(v.entries, disc).Str? && Select(variants, Get(v.entries, disc).s).Some? {
      var variant := Select(variants, Get(v.entries, disc).s).value;
      ValidateEmpty(variant.rules, variant.forbidExtra, v.entries, loc + [Name(Get(v.entries, disc).s)]);
    }
  }

  // ---------------------------------------------------------------------
  // Failures at one field's path

  /** No other field is declared with the name of field `i`. */
  predicate NameUniqueAt(rules: seq<FieldRule>, i: nat)
    requires i < |rules|
  {
    forall j :: 0 <= j < |rules| && j != i ==> rules[j].name != rules[i].name
  }

  lemma {:induction false} LocsDiffer(prefix: Path, a: string, b: string)
    requires a != b
    ensures prefix + [Name(a)] != prefix + [Name(b)]
  {
    assert (prefix + [Name(a)])[|prefix|] == Name(a);
    assert (prefix + [Name(b)])[|prefix|] == Name(b);
  }

  /** With unique field names, the failures reported at one field's path are
      exactly those of that field's own check. */
  lemma {:induction false} CheckFieldsAt(rules: seq<FieldRule>, d: seq<(string, Value)>, prefix: Path, i: nat)
    requires i < |rules| && NameUniqueAt(rules, i)
    ensures forall f :: f in CheckFields(rules, d, prefix) && f.loc == prefix + [Name(rules[i].name)]
                        <==> f in CheckField(rules[i], d, prefix)
  {
    var here := CheckField(rules[0], d, prefix);
    var rest := CheckFields(rules[1..], d, prefix);
    assert CheckFields(rules, d, prefix) == here + rest;
    if i == 0 {
      CheckFieldsLocs(rules[1..], d, prefix);
      forall f | f in rest ensures f.loc != prefix + [Name(rules[0].name)] {
        var k :| 0 <= k < |rules[1..]| && f.loc == prefix + [Name(rules[1..][k].name)];
        assert rules[1..][k] == rules[k + 1];
        LocsDiffer(prefix, rules[0].name, rules[k + 1].name);
      }
    } else {
      assert rules[1..][i - 1] == rules[i];
      assert forall j :: 0 <= j < |rules[1..]| ==> rules[1..][j] == rules[j + 1];
      CheckFieldsAt(rules[1..], d, prefix, i - 1);
      LocsDiffer(prefix, rules[0].name, rules[i].name);
    }
  }

  // ---------------------------------------------------------------------
  // Lists of tagged variants

  lemma {:induction false} ConcatEmpty<T>(a: seq<T>, b: seq<T>)
    ensures a + b == [] <==> a == [] && b == []
  {
    if a + b == [] { assert |a + b| == |a| + |b|; }
  }

  /** The joined parts are empty exactly when every part is. */
  lemma {:induction false} FlattenEmpty<T>(parts: seq<seq<T>>)
    ensures Flatten(parts) == [] <==> forall k :: 0 <= k < |parts| ==> parts[k] == []
  {
    if parts != [] {
      var init := parts[..|parts| - 1];
      ConcatEmpty(Flatten(init), parts[|parts| - 1]);
      FlattenEmpty(init);
      assert forall k :: 0 <= k < |init| ==> init[k] == parts[k];
    }
  }

  /** A list of tagged variants reports nothing exactly when every element
      passes the variant its tag selects. */
  lemma {:induction false} ElemsSilent(variants: seq<Variant>, disc: string, elems: seq<Value>, loc: Path)
    ensures Flatten(ElemFailures(variants, disc, elems, loc)) == [] <==>
            forall k :: 0 <= k < |elems| ==> TaggedOk(variants, disc, elems[k])
  {
    var parts := ElemFailures(variants, disc, elems, loc);
    FlattenEmpty(parts);
    forall k | 0 <= k < |elems|
      ensures parts[k] == [] <==> TaggedOk(variants, disc, elems[k])
    {
      TaggedEmpty(variants, disc, elems[k], loc + [Index(k)]);
    }
  }

  /** A list-of-variants field reports nothing exactly when it is present,
      is a list, and every element passes. */
  lemma {:induction false} TaggedListEmpty(variants: seq<Variant>, disc: string, d: seq<(string, Value)>, name: string, prefix: Path)
    ensures CheckTaggedList(variants, disc, d, name, prefix) == [] <==>
            HasKey(d, name) && Get(d, name).List? &&
            forall k :: 0 <= k < |Get(d, name).elems| ==> TaggedOk(variants, disc, Get(d, name).elems[k])
  {
    var loc := prefix + [Name(name)];
    var r := Lookup(d, name);
    if r.Some? && r.value.List? {
      assert CheckTaggedList(variants, disc, d, name, prefix) == Flatten(ElemFailures(variants, disc, r.value.elems, loc));
      ElemsSilent(variants, disc, r.value.elems, loc);
    } else {
      assert |CheckTaggedList(variants, disc, d, name, prefix)| == 1;
    }
  }

  /** With unique field names, no failure is reported at a field's path
      exactly when that field passes. */
  lemma {:induction false} FieldSilentIff(rules: seq<FieldRule>, d: seq<(string, Value)>, prefix: Path, i: nat)
    requires i < |rules| && NameUniqueAt(rules, i)
    ensures (forall f :: f in CheckFields(rules, d, prefix) ==> f.loc != prefix + [Name(rules[i].name)])
            <==> FieldOk(rules[i], d)
  {
    CheckFieldsAt(rules, d, prefix, i);
    var own := CheckField(rules[i], d, prefix);
    if own != [] {
      assert own[0] in own;
    }
  }

  // ---------------------------------------------------------------------
  // Kinds and paths of failures

  /** No failure in `fs` sits at `loc`. */
  predicate QuietAt(fs: seq<RawFailure>, loc: Path)
  {
    forall f :: f in fs ==> f.loc != loc
  }

  /** A declared field never reports an extra input. */
  lemma {:induction false} CheckFieldsNoExtra(rules: seq<FieldRule>, d: seq<(string, Value)>, prefix: Path)
    ensures forall f :: f in CheckFields(rules, d, prefix) ==> f.kind != ExtraForbidden
  {
    if rules != [] {
      CheckFieldsNoExtra(rules[1..], d, prefix);
      var here := CheckField(rules[0], d, prefix);
      forall f | f in here ensures f.kind != ExtraForbidden {
        match Lookup(d, rules[0].name)
        case None =>
        case Some(v) =>
          match rules[0].check
          case Free =>
          case OneOf(_) =>
          case Shaped(_) =>
      }
    }
  }
}

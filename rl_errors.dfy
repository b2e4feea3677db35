/**
 * The first failure summary (`rl_sr_validation/errors.py`, `parse_errors`):
 * the failures of one validation are walked once to collect their types and
 * locations, then the "missing" and "string_pattern_mismatch" types are
 * counted. The failures themselves are passed through untouched.
 */
module RlErrors {
  import opened Values

  /** The dict `parse_errors` returns. */
  datatype Parsed = Parsed(missingFieldCount: nat, formatErrorCount: nat, errors: seq<RawFailure>, errorCount: nat)

  /** `error["type"]` of each failure, in order. */
  function TypesOf(fs: seq<RawFailure>): (ts: seq<string>)
    ensures |ts| == |fs|
    ensures forall i :: 0 <= i < |fs| ==> ts[i] == TypeName(fs[i].kind)
  {
    if fs == [] then [] else TypesOf(fs[..|fs| - 1]) + [TypeName(fs[|fs| - 1].kind)]
  }

  /** `error["loc"]` of each failure, in order. */
  function LocsOf(fs: seq<RawFailure>): (ls: seq<Path>)
    ensures |ls| == |fs|
    ensures forall i :: 0 <= i < |fs| ==> ls[i] == fs[i].loc
  {
    if fs == [] then [] else LocsOf(fs[..|fs| - 1]) + [fs[|fs| - 1].loc]
  }

  /** parse_errors: the failures are returned as given, with their number
      and the number of "missing" and "string_pattern_mismatch" types among
      them. */
  method ParseErrors(errors: seq<RawFailure>) returns (p: Parsed)
    ensures p.errors == errors
    ensures p.errorCount == |errors|
    ensures p.missingFieldCount == Count(TypesOf(errors), "missing")
    ensures p.formatErrorCount == Count(TypesOf(errors), "string_pattern_mismatch")
  {
    var errorCount := |errors|;
    var errorTypes: seq<string> := [];
    var errorLocs: seq<Path> := [];
    var i := 0;
    while i < |errors|
      invariant i <= |errors|
      invariant errorTypes == TypesOf(errors[..i])
      invariant errorLocs == LocsOf(errors[..i])
    {
      var error := errors[i];
      assert errors[..i + 1][..i] == errors[..i];
      errorTypes := errorTypes + [TypeName(error.kind)];
      errorLocs := errorLocs + [error.loc];
      i := i + 1;
    }
    assert errors[..|errors|] == errors;
    var missingFieldCount := Count(errorTypes, "missing");
    var formatErrorCount := Count(errorTypes, "string_pattern_mismatch");
    p := Parsed(missingFieldCount, formatErrorCount, errors, errorCount);
  }

  // ---------------------------------------------------------------------
  // What the counts mean

  /** A built-in type's name is shared only by a custom type spelled the
      same way. */
  lemma {:induction false} NameClash(t: ErrorType, k: ErrorType)
    requires !k.Custom?
    ensures TypeName(t) == TypeName(k) <==> t == k || t == Custom(TypeName(k))
  {
  }

  lemma {:induction false} CountSingle(a: string, b: string)
    ensures Count([a], b) == if a == b then 1 else 0
  {
    assert [a][1..] == [];
  }

  /** Counting a built-in type's name counts the failures of that type and
      of the custom type spelled the same way. */
  lemma {:induction false} TypeCount(fs: seq<RawFailure>, n: nat, k: ErrorType)
    requires n <= |fs| && !k.Custom?
    ensures Count(TypesOf(fs[..n]), TypeName(k)) == KindCount(fs, n, k) + KindCount(fs, n, Custom(TypeName(k)))
  {
    if n > 0 {
      TypeCount(fs, n - 1, k);
      assert fs[..n][..n - 1] == fs[..n - 1];
      var last := [TypeName(fs[n - 1].kind)];
      assert TypesOf(fs[..n]) == TypesOf(fs[..n - 1]) + last;
      CountAppend(TypesOf(fs[..n - 1]), last, TypeName(k));
      CountSingle(TypeName(fs[n - 1].kind), TypeName(k));
      NameClash(fs[n - 1].kind, k);
    }
  }

  /** No failure carries a custom type: true of every failure the schemas
      themselves raise. */
  predicate BuiltIn(fs: seq<RawFailure>)
  {
    forall i :: 0 <= i < |fs| ==> !fs[i].kind.Custom?
  }

  lemma {:induction false} NoCustomCount(fs: seq<RawFailure>, n: nat, name: string)
    requires n <= |fs| && BuiltIn(fs)
    ensures KindCount(fs, n, Custom(name)) == 0
  {
    if n > 0 {
      NoCustomCount(fs, n - 1, name);
    }
  }

  /** For failures of built-in types the two counts are exactly the number
      of missing fields and of pattern mismatches; together they never
      exceed the number of failures. */
  lemma {:induction false} CountsMeaning(errors: seq<RawFailure>)
    ensures Count(TypesOf(errors), "missing") ==
              KindCount(errors, |errors|, Missing) + KindCount(errors, |errors|, Custom("missing"))
    ensures Count(TypesOf(errors), "string_pattern_mismatch") ==
              KindCount(errors, |errors|, StringPatternMismatch) +
              KindCount(errors, |errors|, Custom("string_pattern_mismatch"))
    ensures BuiltIn(errors) ==>
              Count(TypesOf(errors), "missing") == KindCount(errors, |errors|, Missing) &&
              Count(TypesOf(errors), "string_pattern_mismatch") == KindCount(errors, |errors|, StringPatternMismatch)
    ensures Count(TypesOf(errors), "missing") + Count(TypesOf(errors), "string_pattern_mismatch") <= |errors|
  {
    assert errors[..|errors|] == errors;
    TypeCount(errors, |errors|, Missing);
    TypeCount(errors, |errors|, StringPatternMismatch);
    if BuiltIn(errors) {
      NoCustomCount(errors, |errors|, "missing");
      NoCustomCount(errors, |errors|, "string_pattern_mismatch");
    }
    CountDisjoint(TypesOf(errors), "missing", "string_pattern_mismatch");
  }
}

/** The fallback expander of modeltranslation/manager.py: `_rewrite_with_fallbacks` and
    `rewrite_with_fallbacks` turn one comparison into a condition that compares against
    the first language, in resolution order, whose column is not empty. */
module Fallbacks {
  import opened Common
  import opened LookupPath
  import opened Resolver
  import opened QueryTree

  /** `django.db.models.sql.constants.QUERY_TERMS` of the Django releases the source
      targets. */
  const QueryTerms: set<string> := {
    "exact", "iexact", "contains", "icontains", "gt", "gte", "lt", "lte", "in",
    "startswith", "istartswith", "endswith", "iendswith", "range", "year", "month",
    "day", "week_day", "isnull", "search", "regex", "iregex"}

  /** `field IS NOT NULL`, written `field__isnull=False`. */
  function NotNull(col: string): Q {
    Leaf(col + "__isnull", Lit(PyBool(false)))
  }

  /** `field IS NULL OR field = ''`: the column holds no translation. */
  function EmptyColumn(col: string): Q {
    Or(Leaf(col + "__isnull", Lit(PyBool(true))), Leaf(col, Lit(PyStr(""))))
  }

  /** `_rewrite_with_fallbacks(model, lookup_fields, lookup_type, value, langs)`: the
      comparison for `langs[0]`, strengthened by a not-null check, OR, when more
      languages follow, the column of `langs[0]` is empty AND the expansion of the
      remaining languages holds. */
  function ExpandFallbacks(s: Schema, loc: Naming, model: ModelId, fields: string, lookupType: string,
                           value: Value, langs: seq<string>, current: string): (r: Result<Q>)
    requires NamingOk(s, loc) && |langs| > 0
    ensures model in s.translatable ==> r.Success?
    ensures model !in s.translatable ==> (r.Failure? <==> HasSep(fields))
    decreases |langs|
  {
    match RewriteLookupKey(s, loc, model, fields, langs[0], current)
    case Failure(e) => Failure(e)
    case Success(col) =>
      var q := And(NotNull(col), Leaf(col + "__" + lookupType, value));
      if |langs| > 1 then
        match ExpandFallbacks(s, loc, model, fields, lookupType, value, langs[1..], current)
        case Failure(e) => Failure(e)
        case Success(fallback) => Success(Or(q, And(EmptyColumn(col), fallback)))
      else Success(q)
  }

  /** The column of each language the expansion compares against. */
  function Columns(s: Schema, loc: Naming, model: ModelId, fields: string, langs: seq<string>, current: string): (r: seq<string>)
    requires NamingOk(s, loc) && model in s.translatable
    ensures |r| == |langs|
    ensures forall i :: 0 <= i < |langs| ==> Success(r[i]) == RewriteLookupKey(s, loc, model, fields, langs[i], current)
  {
    seq(|langs|, i requires 0 <= i < |langs| => RewriteLookupKey(s, loc, model, fields, langs[i], current).value)
  }

  /** With a single language the expansion is the strengthened comparison itself;
      no OR is involved. */
  lemma SingleLanguage(s: Schema, loc: Naming, model: ModelId, fields: string, t: string, v: Value, lang: string, current: string)
    requires NamingOk(s, loc) && model in s.translatable
    ensures
      var col := RewriteLookupKey(s, loc, model, fields, lang, current).value;
      ExpandFallbacks(s, loc, model, fields, t, v, [lang], current) ==
        Success(Node(AND, false, [Leaf(col + "__isnull", Lit(PyBool(false))), Leaf(col + "__" + t, v)]))
  {
  }

  /** With more languages the expansion nests to the right in the order of the list:
      the first language's strengthened comparison, or its column is empty and the
      expansion of the rest holds. */
  lemma SeveralLanguages(s: Schema, loc: Naming, model: ModelId, fields: string, t: string, v: Value, langs: seq<string>, current: string)
    requires NamingOk(s, loc) && model in s.translatable && |langs| > 1
    ensures
      var col := RewriteLookupKey(s, loc, model, fields, langs[0], current).value;
      ExpandFallbacks(s, loc, model, fields, t, v, langs, current) ==
        Success(Or(And(NotNull(col), Leaf(col + "__" + t, v)),
                   And(EmptyColumn(col), ExpandFallbacks(s, loc, model, fields, t, v, langs[1..], current).value)))
  {
  }

  /** The leaves the expansion should have, language by language: the not-null check and
      the comparison, then, for every language but the last, the two emptiness tests. */
  function FallbackLeaves(cols: seq<string>, t: string, v: Value): seq<(string, Value)> {
    Flatten(seq(|cols|, i requires 0 <= i < |cols| =>
      [(cols[i] + "__isnull", Lit(PyBool(false))), (cols[i] + "__" + t, v)] +
      (if i < |cols| - 1 then [(cols[i] + "__isnull", Lit(PyBool(true))), (cols[i], Lit(PyStr("")))] else [])))
  }

  lemma FallbackLeavesLength(cols: seq<string>, t: string, v: Value)
    requires |cols| > 0
    ensures |FallbackLeaves(cols, t, v)| == 4 * |cols| - 2
    decreases |cols|
  {
    if |cols| > 1 {
      FallbackLeavesLength(cols[1..], t, v);
      FallbackLeavesCons(cols, t, v);
    } else {
      FallbackLeavesSingle(cols, t, v);
    }
  }

  lemma FallbackLeavesSingle(cols: seq<string>, t: string, v: Value)
    requires |cols| == 1
    ensures FallbackLeaves(cols, t, v) == [(cols[0] + "__isnull", Lit(PyBool(false))), (cols[0] + "__" + t, v)]
  {
    var xs := seq(|cols|, i requires 0 <= i < |cols| =>
      [(cols[i] + "__isnull", Lit(PyBool(false))), (cols[i] + "__" + t, v)] +
      (if i < |cols| - 1 then [(cols[i] + "__isnull", Lit(PyBool(true))), (cols[i], Lit(PyStr("")))] else []));
    assert FallbackLeaves(cols, t, v) == Flatten(xs);
    assert xs[1..] == [];
    assert xs[0] == [(cols[0] + "__isnull", Lit(PyBool(false))), (cols[0] + "__" + t, v)] + [];
  }

  lemma FallbackLeavesCons(cols: seq<string>, t: string, v: Value)
    requires |cols| > 1
    ensures FallbackLeaves(cols, t, v) ==
      [(cols[0] + "__isnull", Lit(PyBool(false))), (cols[0] + "__" + t, v),
       (cols[0] + "__isnull", Lit(PyBool(true))), (cols[0], Lit(PyStr("")))] + FallbackLeaves(cols[1..], t, v)
  {
    var xs := seq(|cols|, i requires 0 <= i < |cols| =>
      [(cols[i] + "__isnull", Lit(PyBool(false))), (cols[i] + "__" + t, v)] +
      (if i < |cols| - 1 then [(cols[i] + "__isnull", Lit(PyBool(true))), (cols[i], Lit(PyStr("")))] else []));
    var tail := cols[1..];
    var ys := seq(|tail|, i requires 0 <= i < |tail| =>
      [(tail[i] + "__isnull", Lit(PyBool(false))), (tail[i] + "__" + t, v)] +
      (if i < |tail| - 1 then [(tail[i] + "__isnull", Lit(PyBool(true))), (tail[i], Lit(PyStr("")))] else []));
    assert xs[1..] == ys;
  }

  /** The expansion over N languages has exactly the leaves of `FallbackLeaves`, in that
      order: N comparisons, N not-null checks and N - 1 pairs of emptiness tests. */
  lemma {:induction false} ExpansionLeaves(s: Schema, loc: Naming, model: ModelId, fields: string, t: string, v: Value, langs: seq<string>, current: string)
    requires NamingOk(s, loc) && model in s.translatable && |langs| > 0
    ensures Leaves(ExpandFallbacks(s, loc, model, fields, t, v, langs, current).value) ==
      FallbackLeaves(Columns(s, loc, model, fields, langs, current), t, v)
    ensures |Leaves(ExpandFallbacks(s, loc, model, fields, t, v, langs, current).value)| == 4 * |langs| - 2
    decreases |langs|
  {
    var cols := Columns(s, loc, model, fields, langs, current);
    var col := cols[0];
    var cmp := And(NotNull(col), Leaf(col + "__" + t, v));
    LeavesBinary(AND, false, NotNull(col), Leaf(col + "__" + t, v));
    if |langs| == 1 {
      assert Leaves(ExpandFallbacks(s, loc, model, fields, t, v, langs, current).value) == Leaves(cmp);
      FallbackLeavesSingle(cols, t, v);
    } else {
      var rest := ExpandFallbacks(s, loc, model, fields, t, v, langs[1..], current).value;
      ExpansionLeaves(s, loc, model, fields, t, v, langs[1..], current);
      assert Columns(s, loc, model, fields, langs[1..], current) == cols[1..];
      LeavesBinary(OR, false, Leaf(col + "__isnull", Lit(PyBool(true))), Leaf(col, Lit(PyStr(""))));
      LeavesBinary(AND, false, EmptyColumn(col), rest);
      LeavesBinary(OR, false, cmp, And(EmptyColumn(col), rest));
      FallbackLeavesCons(cols, t, v);
    }
    FallbackLeavesLength(cols, t, v);
  }

  /** A column holds no translation. */
  predicate IsEmpty(p: Py) {
    p == PyNone || p == PyStr("")
  }

  /** The leaves of the expansion mean what their lookups say about a row: `row` gives
      each column's value and `matches` says whether a value passes the comparison. */
  ghost predicate Describes(cols: seq<string>, t: string, v: Value, sat: (string, Value) -> bool,
                            row: string -> Py, matches: Py -> bool)
  {
    forall i :: 0 <= i < |cols| ==>
      sat(cols[i] + "__isnull", Lit(PyBool(false))) == (row(cols[i]) != PyNone) &&
      sat(cols[i] + "__isnull", Lit(PyBool(true))) == (row(cols[i]) == PyNone) &&
      sat(cols[i], Lit(PyStr(""))) == (row(cols[i]) == PyStr("")) &&
      sat(cols[i] + "__" + t, v) == matches(row(cols[i]))
  }

  /** Some language's column is not null and passes the comparison, and the columns of
      all languages before it are empty. */
  ghost predicate FallbackHit(cols: seq<string>, row: string -> Py, matches: Py -> bool) {
    exists i :: 0 <= i < |cols| && row(cols[i]) != PyNone && matches(row(cols[i])) &&
      forall j :: 0 <= j < i ==> IsEmpty(row(cols[j]))
  }

  /** The facts `Describes` gives about one column. */
  ghost predicate DescribesColumn(col: string, t: string, v: Value, sat: (string, Value) -> bool,
                                  row: string -> Py, matches: Py -> bool)
  {
    sat(col + "__isnull", Lit(PyBool(false))) == (row(col) != PyNone) &&
    sat(col + "__isnull", Lit(PyBool(true))) == (row(col) == PyNone) &&
    sat(col, Lit(PyStr(""))) == (row(col) == PyStr("")) &&
    sat(col + "__" + t, v) == matches(row(col))
  }

  lemma DescribesSplit(cols: seq<string>, t: string, v: Value, sat: (string, Value) -> bool,
                       row: string -> Py, matches: Py -> bool)
    requires |cols| > 0 && Describes(cols, t, v, sat, row, matches)
    ensures DescribesColumn(cols[0], t, v, sat, row, matches)
    ensures Describes(cols[1..], t, v, sat, row, matches)
  {
    var tail := cols[1..];
    forall i | 0 <= i < |tail|
      ensures sat(tail[i] + "__isnull", Lit(PyBool(false))) == (row(tail[i]) != PyNone) &&
        sat(tail[i] + "__isnull", Lit(PyBool(true))) == (row(tail[i]) == PyNone) &&
        sat(tail[i], Lit(PyStr(""))) == (row(tail[i]) == PyStr("")) &&
        sat(tail[i] + "__" + t, v) == matches(row(tail[i]))
    {
      assert tail[i] == cols[i + 1];
    }
  }

  /** One level of the expansion: the first language decides, or it is empty and the
      rest decides. */
  lemma EvalLevel(col: string, t: string, v: Value, rest: Q, sat: (string, Value) -> bool,
                  row: string -> Py, matches: Py -> bool)
    requires DescribesColumn(col, t, v, sat, row, matches)
    ensures Eval(And(NotNull(col), Leaf(col + "__" + t, v)), sat) == (row(col) != PyNone && matches(row(col)))
    ensures Eval(Or(And(NotNull(col), Leaf(col + "__" + t, v)), And(EmptyColumn(col), rest)), sat) ==
      ((row(col) != PyNone && matches(row(col))) || (IsEmpty(row(col)) && Eval(rest, sat)))
  {
    var cmp := And(NotNull(col), Leaf(col + "__" + t, v));
    EvalAndOr(NotNull(col), Leaf(col + "__" + t, v), sat);
    EvalAndOr(Leaf(col + "__isnull", Lit(PyBool(true))), Leaf(col, Lit(PyStr(""))), sat);
    EvalAndOr(EmptyColumn(col), rest, sat);
    EvalAndOr(cmp, And(EmptyColumn(col), rest), sat);
  }

  lemma HitSingle(cols: seq<string>, row: string -> Py, matches: Py -> bool)
    requires |cols| == 1
    ensures FallbackHit(cols, row, matches) <==> (row(cols[0]) != PyNone && matches(row(cols[0])))
  {
    assert forall i :: 0 <= i < |cols| ==> cols[i] == cols[0];
  }

  lemma HitCons(cols: seq<string>, row: string -> Py, matches: Py -> bool)
    requires |cols| > 1
    ensures FallbackHit(cols, row, matches) <==>
      ((row(cols[0]) != PyNone && matches(row(cols[0]))) ||
       (IsEmpty(row(cols[0])) && FallbackHit(cols[1..], row, matches)))
  {
    var tail := cols[1..];
    if FallbackHit(cols, row, matches) {
      var i :| 0 <= i < |cols| && row(cols[i]) != PyNone && matches(row(cols[i])) &&
        forall j :: 0 <= j < i ==> IsEmpty(row(cols[j]));
      if i > 0 {
        assert IsEmpty(row(cols[0]));
        assert row(tail[i - 1]) != PyNone && matches(row(tail[i - 1]));
        forall j | 0 <= j < i - 1 ensures IsEmpty(row(tail[j])) {
          assert tail[j] == cols[j + 1];
        }
      }
    }
    if row(cols[0]) != PyNone && matches(row(cols[0])) {
    } else if IsEmpty(row(cols[0])) && FallbackHit(tail, row, matches) {
      var i :| 0 <= i < |tail| && row(tail[i]) != PyNone && matches(row(tail[i])) &&
        forall j :: 0 <= j < i ==> IsEmpty(row(tail[j]));
      assert cols[i + 1] == tail[i];
      forall j | 0 <= j < i + 1 ensures IsEmpty(row(cols[j])) {
        if j > 0 { assert cols[j] == tail[j - 1]; }
      }
    }
  }

  /** What the expansion means: a row passes exactly when some language passes the
      comparison while every language before it is empty. */
  lemma {:induction false} ExpansionMeaning(s: Schema, loc: Naming, model: ModelId, fields: string, t: string, v: Value,
                                            langs: seq<string>, current: string,
                                            sat: (string, Value) -> bool, row: string -> Py, matches: Py -> bool)
    requires NamingOk(s, loc) && model in s.translatable && |langs| > 0
    requires Describes(Columns(s, loc, model, fields, langs, current), t, v, sat, row, matches)
    ensures Eval(ExpandFallbacks(s, loc, model, fields, t, v, langs, current).value, sat) <==>
      FallbackHit(Columns(s, loc, model, fields, langs, current), row, matches)
    decreases |langs|
  {
    var cols := Columns(s, loc, model, fields, langs, current);
    var col := cols[0];
    DescribesSplit(cols, t, v, sat, row, matches);
    if |langs| == 1 {
      SingleLanguage(s, loc, model, fields, t, v, langs[0], current);
      assert [langs[0]] == langs;
      EvalLevel(col, t, v, NotNull(col), sat, row, matches);
      HitSingle(cols, row, matches);
    } else {
      var rest := ExpandFallbacks(s, loc, model, fields, t, v, langs[1..], current).value;
      SeveralLanguages(s, loc, model, fields, t, v, langs, current);
      assert Columns(s, loc, model, fields, langs[1..], current) == cols[1..];
      ExpansionMeaning(s, loc, model, fields, t, v, langs[1..], current, sat, row, matches);
      EvalLevel(col, t, v, rest, sat, row, matches);
      HitCons(cols, row, matches);
    }
  }

  /** The promise of `rewrite_with_fallbacks`' doc comment: when an empty string never
      passes the comparison, the expansion compares against the first language whose
      column is not empty. */
  lemma FirstNonEmptyDecides(s: Schema, loc: Naming, model: ModelId, fields: string, t: string, v: Value,
                             langs: seq<string>, current: string,
                             sat: (string, Value) -> bool, row: string -> Py, matches: Py -> bool, k: nat)
    requires NamingOk(s, loc) && model in s.translatable && |langs| > 0
    requires Describes(Columns(s, loc, model, fields, langs, current), t, v, sat, row, matches)
    requires !matches(PyStr(""))
    requires k < |langs|
    requires !IsEmpty(row(Columns(s, loc, model, fields, langs, current)[k]))
    requires forall j :: 0 <= j < k ==> IsEmpty(row(Columns(s, loc, model, fields, langs, current)[j]))
    ensures Eval(ExpandFallbacks(s, loc, model, fields, t, v, langs, current).value, sat) <==>
      matches(row(Columns(s, loc, model, fields, langs, current)[k]))
  {
    var cols := Columns(s, loc, model, fields, langs, current);
    ExpansionMeaning(s, loc, model, fields, t, v, langs, current, sat, row, matches);
    if FallbackHit(cols, row, matches) {
      var i :| 0 <= i < |cols| && row(cols[i]) != PyNone && matches(row(cols[i])) &&
        forall j :: 0 <= j < i ==> IsEmpty(row(cols[j]));
      assert i == k;
    }
    if matches(row(cols[k])) {
      assert FallbackHit(cols, row, matches);
    }
  }

  /** How `rewrite_with_fallbacks` splits its lookup into the field part and the lookup
      type, as written: the field part is the text before the last "__" even when the
      text after it is not a lookup type. */
  function SplitLookupAsWritten(lookup: string): (r: (string, string))
    ensures r.0 == RSplitOnce(lookup).0
    ensures r.1 == "exact" || r.1 in QueryTerms
    ensures r.1 != "exact" ==> RSplitOnce(lookup).1 == Some(r.1)
    ensures RSplitOnce(lookup).1.Some? && RSplitOnce(lookup).1.value in QueryTerms ==> r.1 == RSplitOnce(lookup).1.value
  {
    var parts := RSplitOnce(lookup);
    (parts.0, if parts.1.Some? && parts.1.value in QueryTerms then parts.1.value else "exact")
  }

  /** The split as intended: a last segment that is not a lookup type belongs to the field
      part, which then is the whole lookup compared with `exact`. */
  function SplitLookup(lookup: string): (r: (string, string))
    ensures r.1 == "exact" || r.1 in QueryTerms
  {
    var parts := RSplitOnce(lookup);
    if parts.1.Some? && parts.1.value in QueryTerms then (parts.0, parts.1.value) else (lookup, "exact")
  }

  /** As written, a relation lookup without a lookup type loses its last segment:
      "author__name" is compared as the field "author". */
  lemma SplitAsWrittenDropsSegment(lookup: string)
    requires HasSep(lookup) && RSplitOnce(lookup).1.value !in QueryTerms
    ensures SplitLookupAsWritten(lookup) == (RSplitOnce(lookup).0, "exact")
    ensures |SplitLookupAsWritten(lookup).0| < |lookup|
    ensures SplitLookup(lookup) == (lookup, "exact")
  {
  }

  /** The intended split loses nothing: the lookup is the field part, followed by "__"
      and the lookup type when one was given; with no lookup type it is compared with
      `exact`. */
  lemma SplitLookupKeepsLookup(lookup: string)
    ensures
      var (fields, t) := SplitLookup(lookup);
      (fields == lookup && t == "exact") ||
      (lookup == fields + Sep + t && t in QueryTerms && !HasSep(t))
    ensures
      var (fields, t) := SplitLookup(lookup);
      t != "exact" ==> fields + Sep + t == lookup
    ensures RSplitOnce(lookup).1.Some? && RSplitOnce(lookup).1.value in QueryTerms ==>
      SplitLookup(lookup) == (RSplitOnce(lookup).0, RSplitOnce(lookup).1.value)
  {
  }

  /** `rewrite_with_fallbacks(model, lookup, value)` as written, with `order` the
      resolution order of the active language. */
  function RewriteWithFallbacksAsWritten(s: Schema, loc: Naming, model: ModelId, lookup: string, value: Value,
                                         order: seq<string>, current: string): (r: Result<Q>)
    requires NamingOk(s, loc) && |order| > 0
    ensures (r == Failure(FallbacksWithIsnull)) <==> RSplitOnce(lookup).1 == Some("isnull")
    ensures model in s.translatable && RSplitOnce(lookup).1 != Some("isnull") ==> r.Success?
    ensures SplitLookupAsWritten(lookup).1 != "isnull" ==>
      r == ExpandFallbacks(s, loc, model, SplitLookupAsWritten(lookup).0, SplitLookupAsWritten(lookup).1, value, order, current)
  {
    var (fields, t) := SplitLookupAsWritten(lookup);
    if t == "isnull" then Failure(FallbacksWithIsnull)
    else ExpandFallbacks(s, loc, model, fields, t, value, order, current)
  }

  /** `rewrite_with_fallbacks` with the intended split. A lookup whose last segment is
      `isnull` is refused; for a registered model nothing else fails. */
  function RewriteWithFallbacks(s: Schema, loc: Naming, model: ModelId, lookup: string, value: Value,
                                order: seq<string>, current: string): (r: Result<Q>)
    requires NamingOk(s, loc) && |order| > 0
    ensures (r == Failure(FallbacksWithIsnull)) <==> RSplitOnce(lookup).1 == Some("isnull")
    ensures model in s.translatable && RSplitOnce(lookup).1 != Some("isnull") ==> r.Success?
    ensures RSplitOnce(lookup).1 != Some("isnull") ==>
      r == ExpandFallbacks(s, loc, model, SplitLookup(lookup).0, SplitLookup(lookup).1, value, order, current)
  {
    var (fields, t) := SplitLookup(lookup);
    if t == "isnull" then Failure(FallbacksWithIsnull)
    else ExpandFallbacks(s, loc, model, fields, t, value, order, current)
  }

  /** The split of the lookup "author__name": its last segment is not a lookup type. */
  lemma SplitOfRelationLookup()
    ensures SplitLookupAsWritten("author__name") == ("author", "exact")
    ensures SplitLookup("author__name") == ("author__name", "exact")
  {
    var lookup := "author__name";
    assert SepAt(lookup, 6);
    assert forall j :: 6 < j < |lookup| ==> !SepAt(lookup, j);
    assert FindLastSepBelow(lookup, |lookup|) == Some(6);
    assert lookup[..6] == "author" && lookup[8..] == "name";
    assert RSplitOnce(lookup) == ("author", Some("name"));
    assert "name" !in QueryTerms;
  }

  /** On a registered model without translatable fields the expansion over one language
      compares the field part as it is. */
  lemma ExpandWithoutTranslatableFields(s: Schema, loc: Naming, model: ModelId, fields: string, t: string, v: Value,
                                        lang: string, current: string)
    requires NamingOk(s, loc) && model in s.translatable && s.translatable[model] == {}
    ensures ExpandFallbacks(s, loc, model, fields, t, v, [lang], current) ==
      Success(And(NotNull(fields), Leaf(fields + "__" + t, v)))
  {
    NonTranslatableUnchanged(s, loc, model, fields, lang, current);
  }

  /** As written, on a registered model without translatable fields and with one
      language, `author__name=v` becomes a comparison of the column `author`, where the
      intended rewrite compares `author__name`. */
  lemma AsWrittenComparesWrongColumn(s: Schema, loc: Naming, model: ModelId, v: Value, lang: string, current: string)
    requires NamingOk(s, loc) && model in s.translatable && s.translatable[model] == {}
    ensures RewriteWithFallbacksAsWritten(s, loc, model, "author__name", v, [lang], current) ==
      Success(And(NotNull("author"), Leaf("author__exact", v)))
    ensures RewriteWithFallbacks(s, loc, model, "author__name", v, [lang], current) ==
      Success(And(NotNull("author__name"), Leaf("author__name__exact", v)))
  {
    SplitOfRelationLookup();
    ExpandWithoutTranslatableFields(s, loc, model, "author", "exact", v, lang, current);
    ExpandWithoutTranslatableFields(s, loc, model, "author__name", "exact", v, lang, current);
    ComparedColumns();
  }

  lemma ComparedColumns()
    ensures "author" + "__" + "exact" == "author__exact"
    ensures "author__name" + "__" + "exact" == "author__name__exact"
  {
  }
}

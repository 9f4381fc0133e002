/** `MultilingualQuerySet` of modeltranslation/manager.py: the rewriting of conditions,
    update values and orderings, and the `_rewrite`, `_fallbacks` and `_populate`
    flags that control it. */
module QuerySet {
  import opened Common
  import opened LookupPath
  import opened Resolver
  import opened QueryTree
  import opened Fallbacks
  import opened AutoPopulate

  /** The ambient state the rewriter reads: the active language (`get_language()`), its
      resolution order (`resolution_order(get_language())`, never empty, starting with
      the active language) and `settings.ENABLE_FALLBACKS`. */
  datatype Ambient = Ambient(current: string, order: seq<string>, enableFallbacks: bool)

  /** One leaf `(key, value)` of a condition, as `_rewrite_q` treats it: expanded over the
      fallback languages by `rewrite_with_fallbacks` as written when both `_fallbacks` and
      `ENABLE_FALLBACKS` are on, otherwise its key rewritten for the active language. */
  function RewriteLeaf(s: Schema, loc: Naming, model: ModelId, amb: Ambient, fallbacks: bool, key: string, value: Value): (r: Result<Q>)
    requires NamingOk(s, loc) && |amb.order| > 0
    ensures fallbacks && amb.enableFallbacks ==> r == RewriteWithFallbacksAsWritten(s, loc, model, key, value, amb.order, amb.current)
    ensures !(fallbacks && amb.enableFallbacks) ==>
      match RewriteLookupKey(s, loc, model, key, amb.current, amb.current)
      case Success(k) => r == Success(Leaf(k, value))
      case Failure(e) => r == Failure(e)
  {
    if fallbacks && amb.enableFallbacks then RewriteWithFallbacksAsWritten(s, loc, model, key, value, amb.order, amb.current)
    else
      match RewriteLookupKey(s, loc, model, key, amb.current, amb.current)
      case Success(k) => Success(Leaf(k, value))
      case Failure(e) => Failure(e)
  }

  /** `_rewrite_q(q)`: every leaf rewritten, the nodes kept. */
  function RewriteQ(s: Schema, loc: Naming, model: ModelId, amb: Ambient, fallbacks: bool, q: Q): (r: Result<Q>)
    requires NamingOk(s, loc) && |amb.order| > 0
    ensures model in s.translatable && !(fallbacks && amb.enableFallbacks) ==> r.Success?
    ensures model in s.translatable && r.Failure? ==> r.error == FallbacksWithIsnull
    decreases q
  {
    match q
    case Leaf(k, v) => RewriteLeaf(s, loc, model, amb, fallbacks, k, v)
    case Node(c, neg, ch) =>
      var rs := seq(|ch|, i requires 0 <= i < |ch| => RewriteQ(s, loc, model, amb, fallbacks, ch[i]));
      match Collect(rs)
      case Success(ch2) => Success(Node(c, neg, ch2))
      case Failure(e) => Failure(e)
  }

  /** `_rewrite_f(value)`: every `F` reference renamed for the active language, through
      expression nodes; literals are kept. */
  function RewriteF(s: Schema, loc: Naming, model: ModelId, current: string, v: Value): (r: Result<Value>)
    requires NamingOk(s, loc)
    ensures model in s.translatable ==> r.Success?
    decreases v
  {
    match v
    case Lit(_) => Success(v)
    case F(n) =>
      (match RewriteLookupKey(s, loc, model, n, current, current)
       case Success(n2) => Success(F(n2))
       case Failure(e) => Failure(e))
    case Expression(op, ops) =>
      var rs := seq(|ops|, i requires 0 <= i < |ops| => RewriteF(s, loc, model, current, ops[i]));
      match Collect(rs)
      case Success(ops2) => Success(Expression(op, ops2))
      case Failure(e) => Failure(e)
  }

  /** Leaves `b` are leaves `a` with each key rewritten for the active language and each
      value kept. */
  ghost predicate RenamedLeaves(s: Schema, loc: Naming, model: ModelId, current: string,
                                a: seq<(string, Value)>, b: seq<(string, Value)>)
    requires NamingOk(s, loc)
  {
    |a| == |b| &&
    forall i :: 0 <= i < |a| ==>
      Success(b[i].0) == RewriteLookupKey(s, loc, model, a[i].0, current, current) && b[i].1 == a[i].1
  }

  lemma RenamedLeavesAppend(s: Schema, loc: Naming, model: ModelId, current: string,
                            a1: seq<(string, Value)>, b1: seq<(string, Value)>, a2: seq<(string, Value)>, b2: seq<(string, Value)>)
    requires NamingOk(s, loc)
    requires RenamedLeaves(s, loc, model, current, a1, b1) && RenamedLeaves(s, loc, model, current, a2, b2)
    ensures RenamedLeaves(s, loc, model, current, a1 + a2, b1 + b2)
  {
    forall i | 0 <= i < |a1 + a2|
      ensures Success((b1 + b2)[i].0) == RewriteLookupKey(s, loc, model, (a1 + a2)[i].0, current, current) &&
        (b1 + b2)[i].1 == (a1 + a2)[i].1
    {
      if i >= |a1| {
        assert (a1 + a2)[i] == a2[i - |a1|] && (b1 + b2)[i] == b2[i - |a1|];
      }
    }
  }

  lemma {:induction false} RenamedLeavesFlatten(s: Schema, loc: Naming, model: ModelId, current: string,
                                                xs: seq<seq<(string, Value)>>, ys: seq<seq<(string, Value)>>)
    requires NamingOk(s, loc) && |xs| == |ys|
    requires forall i :: 0 <= i < |xs| ==> RenamedLeaves(s, loc, model, current, xs[i], ys[i])
    ensures RenamedLeaves(s, loc, model, current, Flatten(xs), Flatten(ys))
    decreases |xs|
  {
    if xs != [] {
      RenamedLeavesFlatten(s, loc, model, current, xs[1..], ys[1..]);
      RenamedLeavesAppend(s, loc, model, current, xs[0], ys[0], Flatten(xs[1..]), Flatten(ys[1..]));
    }
  }

  /** With fallbacks off the rewritten condition has the shape, connectors, negations and
      values of the original, and its leaves, in order, are the original leaves with
      their keys rewritten for the active language. */
  lemma {:induction false} RewriteQRenamesLeaves(s: Schema, loc: Naming, model: ModelId, amb: Ambient, fallbacks: bool, q: Q)
    requires NamingOk(s, loc) && |amb.order| > 0
    requires !(fallbacks && amb.enableFallbacks)
    requires RewriteQ(s, loc, model, amb, fallbacks, q).Success?
    ensures EraseKeys(RewriteQ(s, loc, model, amb, fallbacks, q).value) == EraseKeys(q)
    ensures RenamedLeaves(s, loc, model, amb.current, Leaves(q), Leaves(RewriteQ(s, loc, model, amb, fallbacks, q).value))
    decreases q
  {
    match q
    case Leaf(k, v) =>
    case Node(c, neg, ch) =>
      var rs := seq(|ch|, i requires 0 <= i < |ch| => RewriteQ(s, loc, model, amb, fallbacks, ch[i]));
      var ch2 := Collect(rs).value;
      assert RewriteQ(s, loc, model, amb, fallbacks, q).value == Node(c, neg, ch2);
      forall i | 0 <= i < |ch|
        ensures EraseKeys(ch2[i]) == EraseKeys(ch[i])
        ensures RenamedLeaves(s, loc, model, amb.current, Leaves(ch[i]), Leaves(ch2[i]))
      {
        assert rs[i] == Success(ch2[i]);
        RewriteQRenamesLeaves(s, loc, model, amb, fallbacks, ch[i]);
      }
      var xs := seq(|ch|, i requires 0 <= i < |ch| => Leaves(ch[i]));
      var ys := seq(|ch2|, i requires 0 <= i < |ch2| => Leaves(ch2[i]));
      RenamedLeavesFlatten(s, loc, model, amb.current, xs, ys);
      assert seq(|ch2|, i requires 0 <= i < |ch2| => EraseKeys(ch2[i])) ==
        seq(|ch|, i requires 0 <= i < |ch| => EraseKeys(ch[i]));
  }

  /** `x` is in the concatenation exactly when it is in one of the parts. */
  lemma {:induction false} FlattenMember<T>(xs: seq<seq<T>>, x: T)
    ensures x in Flatten(xs) <==> exists j :: 0 <= j < |xs| && x in xs[j]
    decreases |xs|
  {
    if xs != [] {
      FlattenMember(xs[1..], x);
      if exists j :: 0 <= j < |xs[1..]| && x in xs[1..][j] {
        var j :| 0 <= j < |xs[1..]| && x in xs[1..][j];
        assert x in xs[j + 1];
      }
      if exists j :: 0 <= j < |xs| && x in xs[j] {
        var j :| 0 <= j < |xs| && x in xs[j];
        if j > 0 {
          assert x in xs[1..][j - 1];
        }
      }
    }
  }

  /** The rewrite of `q` raises exactly when the rewrite of one of its leaves raises,
      and then with the exception of such a leaf. */
  ghost predicate FailsLikeLeaves(s: Schema, loc: Naming, model: ModelId, amb: Ambient, fallbacks: bool, q: Q)
    requires NamingOk(s, loc) && |amb.order| > 0
  {
    (RewriteQ(s, loc, model, amb, fallbacks, q).Failure? <==>
      exists l :: l in Leaves(q) && RewriteLeaf(s, loc, model, amb, fallbacks, l.0, l.1).Failure?) &&
    (RewriteQ(s, loc, model, amb, fallbacks, q).Failure? ==>
      exists l :: l in Leaves(q) &&
        RewriteLeaf(s, loc, model, amb, fallbacks, l.0, l.1) == Failure(RewriteQ(s, loc, model, amb, fallbacks, q).error))
  }

  /** A failing node fails with the exception of a leaf of its first failing child. */
  lemma NodeFailureFromLeaf(s: Schema, loc: Naming, model: ModelId, amb: Ambient, fallbacks: bool,
                            c: Connector, neg: bool, ch: seq<Q>)
    requires NamingOk(s, loc) && |amb.order| > 0
    requires forall i :: 0 <= i < |ch| ==> FailsLikeLeaves(s, loc, model, amb, fallbacks, ch[i])
    requires RewriteQ(s, loc, model, amb, fallbacks, Node(c, neg, ch)).Failure?
    ensures exists l ::
      l in Leaves(Node(c, neg, ch)) &&
      RewriteLeaf(s, loc, model, amb, fallbacks, l.0, l.1) == Failure(RewriteQ(s, loc, model, amb, fallbacks, Node(c, neg, ch)).error)
  {
    var rs := seq(|ch|, i requires 0 <= i < |ch| => RewriteQ(s, loc, model, amb, fallbacks, ch[i]));
    var xs := seq(|ch|, i requires 0 <= i < |ch| => Leaves(ch[i]));
    var e := RewriteQ(s, loc, model, amb, fallbacks, Node(c, neg, ch)).error;
    var i :| 0 <= i < |rs| && rs[i] == Failure(Collect(rs).error) && forall j :: 0 <= j < i ==> rs[j].Success?;
    var l :| l in Leaves(ch[i]) && RewriteLeaf(s, loc, model, amb, fallbacks, l.0, l.1) == Failure(e);
    assert l in xs[i];
    FlattenMember(xs, l);
  }

  /** A node whose leaf fails fails. */
  lemma NodeFailureOfLeaf(s: Schema, loc: Naming, model: ModelId, amb: Ambient, fallbacks: bool,
                          c: Connector, neg: bool, ch: seq<Q>, l: (string, Value))
    requires NamingOk(s, loc) && |amb.order| > 0
    requires forall i :: 0 <= i < |ch| ==> FailsLikeLeaves(s, loc, model, amb, fallbacks, ch[i])
    requires l in Leaves(Node(c, neg, ch)) && RewriteLeaf(s, loc, model, amb, fallbacks, l.0, l.1).Failure?
    ensures RewriteQ(s, loc, model, amb, fallbacks, Node(c, neg, ch)).Failure?
  {
    var rs := seq(|ch|, i requires 0 <= i < |ch| => RewriteQ(s, loc, model, amb, fallbacks, ch[i]));
    var xs := seq(|ch|, i requires 0 <= i < |ch| => Leaves(ch[i]));
    FlattenMember(xs, l);
    var j :| 0 <= j < |xs| && l in xs[j];
    assert FailsLikeLeaves(s, loc, model, amb, fallbacks, ch[j]);
    assert rs[j].Failure?;
    assert Collect(rs).Failure?;
  }

  /** `_rewrite_q` raises exactly when the rewrite of one of the leaves raises, and then
      with the exception of such a leaf. */
  lemma {:induction false} RewriteQFailure(s: Schema, loc: Naming, model: ModelId, amb: Ambient, fallbacks: bool, q: Q)
    requires NamingOk(s, loc) && |amb.order| > 0
    ensures RewriteQ(s, loc, model, amb, fallbacks, q).Failure? <==>
      exists l :: l in Leaves(q) && RewriteLeaf(s, loc, model, amb, fallbacks, l.0, l.1).Failure?
    ensures RewriteQ(s, loc, model, amb, fallbacks, q).Failure? ==>
      exists l :: l in Leaves(q) &&
        RewriteLeaf(s, loc, model, amb, fallbacks, l.0, l.1) == Failure(RewriteQ(s, loc, model, amb, fallbacks, q).error)
    decreases q
  {
    match q
    case Leaf(k, v) =>
      assert Leaves(q) == [(k, v)];
    case Node(c, neg, ch) =>
      forall i | 0 <= i < |ch|
        ensures FailsLikeLeaves(s, loc, model, amb, fallbacks, ch[i])
      {
        RewriteQFailure(s, loc, model, amb, fallbacks, ch[i]);
      }
      if RewriteQ(s, loc, model, amb, fallbacks, q).Failure? {
        NodeFailureFromLeaf(s, loc, model, amb, fallbacks, c, neg, ch);
      }
      if exists l :: l in Leaves(q) && RewriteLeaf(s, loc, model, amb, fallbacks, l.0, l.1).Failure? {
        var l :| l in Leaves(q) && RewriteLeaf(s, loc, model, amb, fallbacks, l.0, l.1).Failure?;
        NodeFailureOfLeaf(s, loc, model, amb, fallbacks, c, neg, ch, l);
      }
  }

  /** With fallbacks on, for a registered model, `_rewrite_q` raises exactly when some
      leaf's lookup ends in `isnull`. */
  lemma FallbacksRejectIsnull(s: Schema, loc: Naming, model: ModelId, amb: Ambient, q: Q)
    requires NamingOk(s, loc) && |amb.order| > 0 && amb.enableFallbacks && model in s.translatable
    ensures RewriteQ(s, loc, model, amb, true, q).Failure? <==>
      exists l :: l in Leaves(q) && RSplitOnce(l.0).1 == Some("isnull")
    ensures RewriteQ(s, loc, model, amb, true, q).Failure? ==> RewriteQ(s, loc, model, amb, true, q).error == FallbacksWithIsnull
  {
    RewriteQFailure(s, loc, model, amb, true, q);
  }

  /** With fallbacks off and a model that is not registered, `_rewrite_q` raises exactly
      when some leaf's key has more than one segment. */
  lemma UnregisteredConditionFails(s: Schema, loc: Naming, model: ModelId, amb: Ambient, fallbacks: bool, q: Q)
    requires NamingOk(s, loc) && |amb.order| > 0 && !(fallbacks && amb.enableFallbacks) && model !in s.translatable
    ensures RewriteQ(s, loc, model, amb, fallbacks, q).Failure? <==> exists l :: l in Leaves(q) && HasSep(l.0)
  {
    RewriteQFailure(s, loc, model, amb, fallbacks, q);
  }

  lemma {:induction false} FlattenLengthScaled<A, B>(xs: seq<seq<A>>, ys: seq<seq<B>>, k: nat)
    requires |xs| == |ys| && forall i :: 0 <= i < |xs| ==> |ys[i]| == k * |xs[i]|
    ensures |Flatten(ys)| == k * |Flatten(xs)|
    decreases |xs|
  {
    if xs != [] {
      FlattenLengthScaled(xs[1..], ys[1..], k);
      assert |Flatten(ys)| == k * |xs[0]| + k * |Flatten(xs[1..])|;
      assert k * |xs[0]| + k * |Flatten(xs[1..])| == k * (|xs[0]| + |Flatten(xs[1..])|);
    }
  }

  /** One leaf with fallbacks on becomes 4N - 2 leaves. */
  lemma FallbackLeafExpansion(s: Schema, loc: Naming, model: ModelId, amb: Ambient, k: string, v: Value)
    requires NamingOk(s, loc) && |amb.order| > 0 && amb.enableFallbacks && model in s.translatable
    requires RewriteQ(s, loc, model, amb, true, Leaf(k, v)).Success?
    ensures |Leaves(RewriteQ(s, loc, model, amb, true, Leaf(k, v)).value)| == 4 * |amb.order| - 2
  {
    var (fields, t) := SplitLookupAsWritten(k);
    assert t != "isnull";
    assert RewriteQ(s, loc, model, amb, true, Leaf(k, v)) == ExpandFallbacks(s, loc, model, fields, t, v, amb.order, amb.current);
    ExpansionLeaves(s, loc, model, fields, t, v, amb.order, amb.current);
  }

  /** With fallbacks on, every leaf becomes the expansion over the N languages of the
      resolution order, with 4N - 2 leaves of its own; the nodes above are kept. */
  lemma {:induction false} FallbackLeafCount(s: Schema, loc: Naming, model: ModelId, amb: Ambient, q: Q)
    requires NamingOk(s, loc) && |amb.order| > 0 && amb.enableFallbacks && model in s.translatable
    requires RewriteQ(s, loc, model, amb, true, q).Success?
    ensures |Leaves(RewriteQ(s, loc, model, amb, true, q).value)| == (4 * |amb.order| - 2) * |Leaves(q)|
    decreases q, 1
  {
    match q
    case Leaf(k, v) =>
      FallbackLeafExpansion(s, loc, model, amb, k, v);
    case Node(c, neg, ch) =>
      FallbackNodeCount(s, loc, model, amb, c, neg, ch);
  }

  /** A rewritten node keeps its connector and negation, and its children are the
      rewritten children. */
  lemma RewriteQNodeChildren(s: Schema, loc: Naming, model: ModelId, amb: Ambient, fallbacks: bool,
                             c: Connector, neg: bool, ch: seq<Q>)
    requires NamingOk(s, loc) && |amb.order| > 0
    requires RewriteQ(s, loc, model, amb, fallbacks, Node(c, neg, ch)).Success?
    ensures var r := RewriteQ(s, loc, model, amb, fallbacks, Node(c, neg, ch)).value;
      r.Node? && r.connector == c && r.negated == neg && |r.children| == |ch| &&
      forall i :: 0 <= i < |ch| ==> RewriteQ(s, loc, model, amb, fallbacks, ch[i]) == Success(r.children[i])
  {
    var rs := seq(|ch|, i requires 0 <= i < |ch| => RewriteQ(s, loc, model, amb, fallbacks, ch[i]));
    assert forall i :: 0 <= i < |ch| ==> rs[i] == RewriteQ(s, loc, model, amb, fallbacks, ch[i]);
  }

  /** The node case of `FallbackLeafCount`. */
  lemma {:induction false} FallbackNodeCount(s: Schema, loc: Naming, model: ModelId, amb: Ambient,
                                             c: Connector, neg: bool, ch: seq<Q>)
    requires NamingOk(s, loc) && |amb.order| > 0 && amb.enableFallbacks && model in s.translatable
    requires RewriteQ(s, loc, model, amb, true, Node(c, neg, ch)).Success?
    ensures |Leaves(RewriteQ(s, loc, model, amb, true, Node(c, neg, ch)).value)|
         == (4 * |amb.order| - 2) * |Leaves(Node(c, neg, ch))|
    decreases Node(c, neg, ch), 0
  {
    RewriteQNodeChildren(s, loc, model, amb, true, c, neg, ch);
    var ch2 := RewriteQ(s, loc, model, amb, true, Node(c, neg, ch)).value.children;
    forall i | 0 <= i < |ch|
      ensures |Leaves(ch2[i])| == (4 * |amb.order| - 2) * |Leaves(ch[i])|
    {
      FallbackLeafCount(s, loc, model, amb, ch[i]);
    }
    NodeLeavesScaled(c, neg, ch, ch2, 4 * |amb.order| - 2);
  }

  /** A node whose children each have k times the leaves of the corresponding
      original child has k times the leaves of the original node. */
  lemma NodeLeavesScaled(c: Connector, neg: bool, ch: seq<Q>, ch2: seq<Q>, k: nat)
    requires |ch| == |ch2| && forall i :: 0 <= i < |ch| ==> |Leaves(ch2[i])| == k * |Leaves(ch[i])|
    ensures |Leaves(Node(c, neg, ch2))| == k * |Leaves(Node(c, neg, ch))|
  {
    var xs := seq(|ch|, i requires 0 <= i < |ch| => Leaves(ch[i]));
    var ys := seq(|ch2|, i requires 0 <= i < |ch2| => Leaves(ch2[i]));
    FlattenLengthScaled(xs, ys, k);
  }

  /** The names `b` are the names `a` rewritten for the active language. */
  ghost predicate RenamedNames(s: Schema, loc: Naming, model: ModelId, current: string, a: seq<string>, b: seq<string>)
    requires NamingOk(s, loc)
  {
    |a| == |b| && forall i :: 0 <= i < |a| ==> Success(b[i]) == RewriteLookupKey(s, loc, model, a[i], current, current)
  }

  lemma {:induction false} RenamedNamesFlatten(s: Schema, loc: Naming, model: ModelId, current: string,
                                               xs: seq<seq<string>>, ys: seq<seq<string>>)
    requires NamingOk(s, loc) && |xs| == |ys|
    requires forall i :: 0 <= i < |xs| ==> RenamedNames(s, loc, model, current, xs[i], ys[i])
    ensures RenamedNames(s, loc, model, current, Flatten(xs), Flatten(ys))
    decreases |xs|
  {
    if xs != [] {
      RenamedNamesFlatten(s, loc, model, current, xs[1..], ys[1..]);
      RenamedNamesAppend(s, loc, model, current, xs[0], ys[0], Flatten(xs[1..]), Flatten(ys[1..]));
    }
  }

  lemma RenamedNamesAppend(s: Schema, loc: Naming, model: ModelId, current: string,
                           a1: seq<string>, b1: seq<string>, a2: seq<string>, b2: seq<string>)
    requires NamingOk(s, loc)
    requires RenamedNames(s, loc, model, current, a1, b1) && RenamedNames(s, loc, model, current, a2, b2)
    ensures RenamedNames(s, loc, model, current, a1 + a2, b1 + b2)
  {
    forall i | 0 <= i < |a1 + a2|
      ensures Success((b1 + b2)[i]) == RewriteLookupKey(s, loc, model, (a1 + a2)[i], current, current)
    {
      if i >= |a1| {
        assert (a1 + a2)[i] == a2[i - |a1|] && (b1 + b2)[i] == b2[i - |a1|];
      }
    }
  }

  /** `_rewrite_f` keeps the expression's shape and literals and renames each `F`
      reference, in order, for the active language. */
  lemma {:induction false} RewriteFRenames(s: Schema, loc: Naming, model: ModelId, current: string, v: Value)
    requires NamingOk(s, loc) && RewriteF(s, loc, model, current, v).Success?
    ensures EraseNames(RewriteF(s, loc, model, current, v).value) == EraseNames(v)
    ensures RenamedNames(s, loc, model, current, FNames(v), FNames(RewriteF(s, loc, model, current, v).value))
    decreases v
  {
    match v
    case Lit(_) =>
    case F(n) =>
    case Expression(op, ops) =>
      var rs := seq(|ops|, i requires 0 <= i < |ops| => RewriteF(s, loc, model, current, ops[i]));
      var ops2 := Collect(rs).value;
      assert RewriteF(s, loc, model, current, v).value == Expression(op, ops2);
      forall i | 0 <= i < |ops|
        ensures EraseNames(ops2[i]) == EraseNames(ops[i])
        ensures RenamedNames(s, loc, model, current, FNames(ops[i]), FNames(ops2[i]))
      {
        assert rs[i] == Success(ops2[i]);
        RewriteFRenames(s, loc, model, current, ops[i]);
      }
      var xs := seq(|ops|, i requires 0 <= i < |ops| => FNames(ops[i]));
      var ys := seq(|ops2|, i requires 0 <= i < |ops2| => FNames(ops2[i]));
      RenamedNamesFlatten(s, loc, model, current, xs, ys);
      assert seq(|ops2|, i requires 0 <= i < |ops2| => EraseNames(ops2[i])) ==
        seq(|ops|, i requires 0 <= i < |ops| => EraseNames(ops[i]));
  }

  /** A value without references is passed through as it is. */
  lemma RewriteFLiteral(s: Schema, loc: Naming, model: ModelId, current: string, p: Py)
    requires NamingOk(s, loc)
    ensures RewriteF(s, loc, model, current, Lit(p)) == Success(Lit(p))
  {
  }

  /** The ordering keys rewritten one by one, as the list comprehension of
      `_rewrite_order` and the loops of `_post_init` and `order_by` do. */
  function RewriteOrdering(s: Schema, loc: Naming, model: ModelId, keys: seq<string>, current: string): (r: Result<seq<string>>)
    requires NamingOk(s, loc)
    ensures r.Success? <==> forall i :: 0 <= i < |keys| ==> RewriteOrderLookupKey(s, loc, model, keys[i], current).Success?
    ensures r.Success? ==> |r.value| == |keys|
    ensures r.Success? ==>
      forall i :: 0 <= i < |keys| ==> Success(r.value[i]) == RewriteOrderLookupKey(s, loc, model, keys[i], current)
    ensures model in s.translatable ==> r.Success?
    decreases |keys|
  {
    if keys == [] then Success([])
    else
      match RewriteOrderLookupKey(s, loc, model, keys[0], current)
      case Failure(e) => Failure(e)
      case Success(k) =>
        match RewriteOrdering(s, loc, model, keys[1..], current)
        case Failure(e) =>
          assert !RewriteOrderLookupKey(s, loc, model, keys[1..][0], current).Success? ||
            exists i :: 1 <= i < |keys| && !RewriteOrderLookupKey(s, loc, model, keys[i], current).Success?;
          Failure(e)
        case Success(ks) => Success([k] + ks)
  }

  /** Rewriting an ordering keeps its length and order and each key's direction. */
  lemma OrderingKeepsDirection(s: Schema, loc: Naming, model: ModelId, keys: seq<string>, current: string)
    requires NamingOk(s, loc) && RewriteOrdering(s, loc, model, keys, current).Success?
    ensures |RewriteOrdering(s, loc, model, keys, current).value| == |keys|
    ensures forall i :: 0 <= i < |keys| && |keys[i]| > 0 && keys[i][0] == '-' ==>
      var k := RewriteOrdering(s, loc, model, keys, current).value[i];
      |k| > 0 && k[0] == '-'
  {
  }

  /** The loop of `update` over `kwargs.items()`, starting from the dictionary `m`: each
      item's key is deleted and its rewritten key set to its rewritten value. */
  function UpdateKwargs(s: Schema, loc: Naming, model: ModelId, current: string,
                        m: map<string, Value>, items: seq<(string, Value)>): (r: Result<map<string, Value>>)
    requires NamingOk(s, loc)
    ensures model in s.translatable ==> r.Success?
    decreases |items|
  {
    if items == [] then Success(m)
    else
      match RewriteLookupKey(s, loc, model, items[0].0, current, current)
      case Failure(e) => Failure(e)
      case Success(k) =>
        match RewriteF(s, loc, model, current, items[0].1)
        case Failure(e) => Failure(e)
        case Success(v) => UpdateKwargs(s, loc, model, current, (m - {items[0].0})[k := v], items[1..])
  }

  /** Some item's key and value rewrite to `k` and `v`. */
  ghost predicate FromItem(s: Schema, loc: Naming, model: ModelId, current: string,
                           items: seq<(string, Value)>, k: string, v: Value)
    requires NamingOk(s, loc)
  {
    exists i :: 0 <= i < |items| &&
      RewriteLookupKey(s, loc, model, items[i].0, current, current) == Success(k) &&
      RewriteF(s, loc, model, current, items[i].1) == Success(v)
  }

  /** No item has the key `k`. */
  ghost predicate NoItemKey(items: seq<(string, Value)>, k: string) {
    forall i :: 0 <= i < |items| ==> items[i].0 != k
  }

  /** Every entry the loop leaves comes from one item, the item's rewritten key and
      rewritten value, or is an entry of `m` whose key no item has. */
  lemma {:induction false} UpdateEntryFromItems(s: Schema, loc: Naming, model: ModelId, current: string,
                                                m: map<string, Value>, items: seq<(string, Value)>, k: string)
    requires NamingOk(s, loc) && model in s.translatable
    requires k in UpdateKwargs(s, loc, model, current, m, items).value
    ensures
      var r := UpdateKwargs(s, loc, model, current, m, items).value;
      FromItem(s, loc, model, current, items, k, r[k]) || (k in m && r[k] == m[k] && NoItemKey(items, k))
    decreases |items|
  {
    if items != [] {
      var k0 := RewriteLookupKey(s, loc, model, items[0].0, current, current).value;
      var v0 := RewriteF(s, loc, model, current, items[0].1).value;
      var m1 := (m - {items[0].0})[k0 := v0];
      var r := UpdateKwargs(s, loc, model, current, m, items).value;
      assert r == UpdateKwargs(s, loc, model, current, m1, items[1..]).value;
      UpdateEntryFromItems(s, loc, model, current, m1, items[1..], k);
      if FromItem(s, loc, model, current, items[1..], k, r[k]) {
        var i :| 0 <= i < |items[1..]| &&
          RewriteLookupKey(s, loc, model, items[1..][i].0, current, current) == Success(k) &&
          RewriteF(s, loc, model, current, items[1..][i].1) == Success(r[k]);
        assert items[1..][i] == items[i + 1];
      } else if k == k0 {
        assert r[k] == v0;
      } else {
        assert forall i :: 1 <= i < |items| ==> items[i].0 == items[1..][i - 1].0;
      }
    }
  }

  /** An item whose rewritten key no later item deletes or sets again ends up in the
      result with its rewritten value: among items aiming at the same key, the last one
      written wins. */
  lemma {:induction false} UpdateLastWriterWins(s: Schema, loc: Naming, model: ModelId, current: string,
                                                m: map<string, Value>, items: seq<(string, Value)>, i: nat)
    requires NamingOk(s, loc) && model in s.translatable && i < |items|
    requires forall j :: i < j < |items| ==>
      items[j].0 != RewriteLookupKey(s, loc, model, items[i].0, current, current).value &&
      RewriteLookupKey(s, loc, model, items[j].0, current, current) != RewriteLookupKey(s, loc, model, items[i].0, current, current)
    ensures
      var k := RewriteLookupKey(s, loc, model, items[i].0, current, current).value;
      k in UpdateKwargs(s, loc, model, current, m, items).value &&
      Success(UpdateKwargs(s, loc, model, current, m, items).value[k]) == RewriteF(s, loc, model, current, items[i].1)
    decreases |items|
  {
    var k0 := RewriteLookupKey(s, loc, model, items[0].0, current, current).value;
    var v0 := RewriteF(s, loc, model, current, items[0].1).value;
    var m1 := (m - {items[0].0})[k0 := v0];
    if i > 0 {
      forall j | i - 1 < j < |items[1..]|
        ensures items[1..][j].0 != RewriteLookupKey(s, loc, model, items[1..][i - 1].0, current, current).value &&
          RewriteLookupKey(s, loc, model, items[1..][j].0, current, current) !=
            RewriteLookupKey(s, loc, model, items[1..][i - 1].0, current, current)
      {
        assert items[1..][j] == items[j + 1];
      }
      UpdateLastWriterWins(s, loc, model, current, m1, items[1..], i - 1);
    } else {
      UpdateKeepsUntouched(s, loc, model, current, m1, items[1..], k0);
    }
  }

  /** An entry that no item deletes or sets survives the loop. */
  lemma {:induction false} UpdateKeepsUntouched(s: Schema, loc: Naming, model: ModelId, current: string,
                                                m: map<string, Value>, items: seq<(string, Value)>, k: string)
    requires NamingOk(s, loc) && model in s.translatable && k in m
    requires forall j :: 0 <= j < |items| ==>
      items[j].0 != k && RewriteLookupKey(s, loc, model, items[j].0, current, current) != Success(k)
    ensures k in UpdateKwargs(s, loc, model, current, m, items).value
    ensures UpdateKwargs(s, loc, model, current, m, items).value[k] == m[k]
    decreases |items|
  {
    if items != [] {
      var k0 := RewriteLookupKey(s, loc, model, items[0].0, current, current).value;
      var v0 := RewriteF(s, loc, model, current, items[0].1).value;
      var m1 := (m - {items[0].0})[k0 := v0];
      assert k in m1 && m1[k] == m[k];
      forall j | 0 <= j < |items[1..]|
        ensures items[1..][j].0 != k && RewriteLookupKey(s, loc, model, items[1..][j].0, current, current) != Success(k)
      {
        assert items[1..][j] == items[j + 1];
      }
      UpdateKeepsUntouched(s, loc, model, current, m1, items[1..], k);
    }
  }

  /** The keyword arguments of `_clone`: each flag given explicitly or not at all. */
  datatype CloneKwargs = CloneKwargs(rewrite: Option<bool>, fallbacks: Option<bool>, populate: Option<Py>)

  /** `kwargs.setdefault(name, current)`: an explicit value wins. */
  function SetDefault<T>(given: Option<T>, current: T): (r: T)
    ensures given.Some? ==> r == given.value
    ensures given.None? ==> r == current
  {
    if given.Some? then given.value else current
  }

  class MultilingualQuerySet {
    const schema: Schema
    const loc: Naming
    const model: ModelId
    /** `model._meta.ordering`, the model's default ordering. */
    const metaOrdering: seq<string>
    /** `_rewrite`, `_fallbacks`, `_populate`. */
    var rewrite: bool
    var fallbacks: bool
    var populate: Py
    /** `query.order_by`. */
    var orderBy: seq<string>
    /** The conditions added to `query.where`, one per `filter`/`exclude` call. */
    var conditions: seq<Q>

    ghost predicate Valid() {
      NamingOk(schema, loc)
    }

    /** Django's `QuerySet(model, query)` over the given query state, with the flags
        `_post_init` gives it; the default ordering is left to `PostInit`. */
    constructor(schema: Schema, loc: Naming, model: ModelId, metaOrdering: seq<string>,
                orderBy: seq<string>, conditions: seq<Q>)
      requires NamingOk(schema, loc)
      ensures Valid()
      ensures this.schema == schema && this.loc == loc && this.model == model
      ensures this.metaOrdering == metaOrdering
      ensures this.orderBy == orderBy && this.conditions == conditions
      ensures rewrite && !fallbacks && populate == PyNone
    {
      this.schema := schema;
      this.loc := loc;
      this.model := model;
      this.metaOrdering := metaOrdering;
      this.orderBy := orderBy;
      this.conditions := conditions;
      rewrite := true;
      fallbacks := false;
      populate := PyNone;
    }

    /** The ordering a query set has once `_post_init` has run at language `current`:
        its own, or, when it has none, the model's default ordering rewritten. */
    function InitialOrdering(current: string): Result<seq<string>>
      requires Valid()
      reads this
    {
      if orderBy == [] then RewriteOrdering(schema, loc, model, metaOrdering, current) else Success(orderBy)
    }

    /** `_post_init()`: the flags take their defaults; when the query has no ordering of
        its own, the model's default ordering is added with every key rewritten. The
        rewrite does not depend on `_rewrite`. */
    method PostInit(current: string) returns (r: Outcome)
      requires Valid()
      modifies this
      ensures rewrite && !fallbacks && populate == PyNone
      ensures conditions == old(conditions)
      ensures r.Fail? <==> old(orderBy) == [] && RewriteOrdering(schema, loc, model, metaOrdering, current).Failure?
      ensures r.Pass? && old(orderBy) == [] ==> orderBy == RewriteOrdering(schema, loc, model, metaOrdering, current).value
      ensures !(r.Pass? && old(orderBy) == []) ==> orderBy == old(orderBy)
    {
      rewrite := true;
      fallbacks := false;
      populate := PyNone;
      r := Pass;
      if orderBy == [] && metaOrdering != [] {
        var ordering: seq<string> := [];
        var i := 0;
        while i < |metaOrdering|
          invariant 0 <= i <= |metaOrdering|
          invariant |ordering| == i
          invariant forall j :: 0 <= j < i ==>
            Success(ordering[j]) == RewriteOrderLookupKey(schema, loc, model, metaOrdering[j], current)
        {
          var k := RewriteOrderLookupKey(schema, loc, model, metaOrdering[i], current);
          if k.Failure? {
            assert RewriteOrdering(schema, loc, model, metaOrdering, current).Failure?;
            return Fail(k.error);
          }
          ordering := ordering + [k.value];
          i := i + 1;
        }
        assert ordering == RewriteOrdering(schema, loc, model, metaOrdering, current).value;
        orderBy := orderBy + ordering;
      }
    }

    /** `c` is a query set over the same model as this one, with the given flags. */
    ghost predicate SameModel(c: MultilingualQuerySet, rw: bool, fb: bool, pop: Py)
      reads this, c
    {
      c.Valid() && c.schema == schema && c.loc == loc && c.model == model && c.metaOrdering == metaOrdering &&
      c.rewrite == rw && c.fallbacks == fb && c.populate == pop
    }

    /** `_clone(**kwargs)`. Django's `_clone` builds the copy through the constructor, so
        the copy's `_post_init` runs first, at language `current`: a copy without an
        ordering adopts the model's rewritten default ordering, and that rewrite can
        raise. Only then are the flags set, to the explicit ones and, for the others,
        this query set's. */
    method Clone(kw: CloneKwargs, current: string) returns (r: Result<MultilingualQuerySet>)
      requires Valid()
      ensures r.Failure? <==> InitialOrdering(current).Failure?
      ensures r.Success? ==> fresh(r.value)
      ensures r.Success? ==>
        SameModel(r.value, SetDefault(kw.rewrite, rewrite), SetDefault(kw.fallbacks, fallbacks), SetDefault(kw.populate, populate))
      ensures r.Success? ==> r.value.orderBy == InitialOrdering(current).value && r.value.conditions == conditions
    {
      var c := new MultilingualQuerySet(schema, loc, model, metaOrdering, orderBy, conditions);
      var o := c.PostInit(current);
      if o.Fail? {
        return Failure(o.error);
      }
      c.rewrite := SetDefault(kw.rewrite, rewrite);
      c.fallbacks := SetDefault(kw.fallbacks, fallbacks);
      c.populate := SetDefault(kw.populate, populate);
      r := Success(c);
    }

    /** `rewrite(mode)`: a clone with only `_rewrite` changed. */
    method Rewrite(mode: bool, current: string) returns (r: Result<MultilingualQuerySet>)
      requires Valid()
      ensures r.Failure? <==> InitialOrdering(current).Failure?
      ensures r.Success? ==> fresh(r.value) && SameModel(r.value, mode, fallbacks, populate)
      ensures r.Success? ==> r.value.orderBy == InitialOrdering(current).value && r.value.conditions == conditions
    {
      r := Clone(CloneKwargs(Some(mode), None, None), current);
    }

    /** `fallbacks(enable)`: a clone with only `_fallbacks` changed. */
    method Fallbacks(enable: bool, current: string) returns (r: Result<MultilingualQuerySet>)
      requires Valid()
      ensures r.Failure? <==> InitialOrdering(current).Failure?
      ensures r.Success? ==> fresh(r.value) && SameModel(r.value, rewrite, enable, populate)
      ensures r.Success? ==> r.value.orderBy == InitialOrdering(current).value && r.value.conditions == conditions
    {
      r := Clone(CloneKwargs(None, Some(enable), None), current);
    }

    /** `populate(mode)` (the caller's default is 'all'): a clone with only `_populate`
        changed. */
    method Populate(mode: Py, current: string) returns (r: Result<MultilingualQuerySet>)
      requires Valid()
      ensures r.Failure? <==> InitialOrdering(current).Failure?
      ensures r.Success? ==> fresh(r.value) && SameModel(r.value, rewrite, fallbacks, mode)
      ensures r.Success? ==> r.value.orderBy == InitialOrdering(current).value && r.value.conditions == conditions
    {
      r := Clone(CloneKwargs(None, None, Some(mode)), current);
    }

    /** `_rewrite_order()`: every key of the current ordering rewritten in place; when a
        key raises, the ordering is left as it was. */
    method RewriteOrder(current: string) returns (r: Outcome)
      requires Valid()
      modifies this
      ensures rewrite == old(rewrite) && fallbacks == old(fallbacks) && populate == old(populate)
      ensures conditions == old(conditions)
      ensures r.Pass? <==> RewriteOrdering(schema, loc, model, old(orderBy), current).Success?
      ensures orderBy == if r.Pass? then RewriteOrdering(schema, loc, model, old(orderBy), current).value else old(orderBy)
    {
      var rewritten := RewriteOrdering(schema, loc, model, orderBy, current);
      if rewritten.Failure? {
        return Fail(rewritten.error);
      }
      orderBy := rewritten.value;
      r := Pass;
    }

    /** `_filter_or_exclude(negate, *args, **kwargs)`: a clone with the condition
        `Q(*args, **kwargs)` added, negated for `exclude`; when `_rewrite` is on, the
        condition is rewritten first and handed over as a single `Q`. The condition is
        built before Django's `_filter_or_exclude` clones the query set. */
    method FilterOrExclude(negate: bool, args: seq<Q>, kwargs: seq<(string, Value)>, amb: Ambient)
      returns (r: Result<MultilingualQuerySet>)
      requires Valid() && |amb.order| > 0
      ensures r.Failure? <==>
        (rewrite && RewriteQ(schema, loc, model, amb, fallbacks, QOf(args, kwargs)).Failure?) ||
        InitialOrdering(amb.current).Failure?
      ensures r.Success? ==> fresh(r.value) && SameModel(r.value, rewrite, fallbacks, populate)
      ensures r.Success? ==> r.value.orderBy == InitialOrdering(amb.current).value
      ensures r.Success? ==>
        r.value.conditions == conditions + [FilterCondition(schema, loc, model, amb, rewrite, fallbacks, negate, args, kwargs).value]
    {
      var cond := FilterCondition(schema, loc, model, amb, rewrite, fallbacks, negate, args, kwargs);
      if cond.Failure? {
        return Failure(cond.error);
      }
      var c := Clone(CloneKwargs(None, None, None), amb.current);
      if c.Failure? {
        return Failure(c.error);
      }
      c.value.conditions := c.value.conditions + [cond.value];
      r := c;
    }

    /** `order_by(*field_names)`: a clone whose ordering is replaced by the given keys,
        rewritten one by one when `_rewrite` is on. The keys are rewritten before
        Django's `order_by` clones the query set, so either step can raise. */
    method OrderBy(names: seq<string>, current: string) returns (r: Result<MultilingualQuerySet>)
      requires Valid()
      ensures r.Failure? <==>
        (rewrite && RewriteOrdering(schema, loc, model, names, current).Failure?) ||
        InitialOrdering(current).Failure?
      ensures r.Success? ==> fresh(r.value) && SameModel(r.value, rewrite, fallbacks, populate)
      ensures r.Success? ==> r.value.conditions == conditions
      ensures r.Success? && !rewrite ==> r.value.orderBy == names
      ensures r.Success? && rewrite ==> r.value.orderBy == RewriteOrdering(schema, loc, model, names, current).value
    {
      var newArgs := names;
      if rewrite {
        newArgs := [];
        var i := 0;
        while i < |names|
          invariant 0 <= i <= |names|
          invariant |newArgs| == i
          invariant forall j :: 0 <= j < i ==>
            Success(newArgs[j]) == RewriteOrderLookupKey(schema, loc, model, names[j], current)
        {
          var k := RewriteOrderLookupKey(schema, loc, model, names[i], current);
          if k.Failure? {
            return Failure(k.error);
          }
          newArgs := newArgs + [k.value];
          i := i + 1;
        }
      }
      var c := Clone(CloneKwargs(None, None, None), current);
      if c.Failure? {
        return Failure(c.error);
      }
      c.value.orderBy := newArgs;
      r := c;
    }

    /** `update(**kwargs)`: the keyword arguments handed on to Django's `update`. With
        `_rewrite` on, the items are visited in iteration order; each item's key is
        deleted and its rewritten key set to its value passed through `_rewrite_f`. */
    method Update(kwargs: seq<(string, Value)>, current: string) returns (r: Result<map<string, Value>>)
      requires Valid() && DistinctKeys(kwargs)
      ensures !rewrite ==> r == Success(MapOf(kwargs))
      ensures rewrite ==> r == UpdateKwargs(schema, loc, model, current, MapOf(kwargs), kwargs)
    {
      var m := MapOf(kwargs);
      if !rewrite {
        return Success(m);
      }
      var i := 0;
      while i < |kwargs|
        invariant 0 <= i <= |kwargs|
        invariant UpdateKwargs(schema, loc, model, current, MapOf(kwargs), kwargs) ==
          UpdateKwargs(schema, loc, model, current, m, kwargs[i..])
      {
        var key := kwargs[i].0;
        var newKey := RewriteLookupKey(schema, loc, model, key, current, current);
        if newKey.Failure? {
          return Failure(newKey.error);
        }
        var newVal := RewriteF(schema, loc, model, current, kwargs[i].1);
        if newVal.Failure? {
          return Failure(newVal.error);
        }
        assert kwargs[i..][1..] == kwargs[i + 1..];
        m := (m - {key})[newKey.value := newVal.value];
        i := i + 1;
      }
      r := Success(m);
    }

    /** `_populate_mode`: the query set's own mode, or the global `AUTO_POPULATE` exactly
        when it has none. */
    function PopulateMode(autoPopulate: Py): (m: Py)
      reads this
      ensures populate == PyNone ==> m == autoPopulate
      ensures populate != PyNone ==> m == populate
    {
      if populate == PyNone then autoPopulate else populate
    }

    /** `create(**kwargs)` and `get_or_create(**kwargs)`: Django's operation runs inside
        `auto_populate(self._populate_mode)`. Returns the `AUTO_POPULATE` in force while
        it runs; afterwards the setting is back to what it was. */
    method Create(settings: Settings) returns (during: Py)
      modifies settings
      ensures during == PopulateMode(old(settings.autoPopulate))
      ensures settings.autoPopulate == old(settings.autoPopulate)
    {
      var saved := settings.Enter(PopulateMode(settings.autoPopulate));
      during := settings.autoPopulate;
      settings.Exit(saved);
    }
  }

  /** `x if negate is false else ~x`. */
  function Negated(negate: bool, q: Q): Q {
    if negate then Invert(q) else q
  }

  /** The condition `_filter_or_exclude` adds to the query: `Q(*args, **kwargs)`, or,
      with `_rewrite` on, `Q(_rewrite_q(Q(*args, **kwargs)))`; negated for `exclude`. */
  function FilterCondition(s: Schema, loc: Naming, model: ModelId, amb: Ambient, rewrite: bool, fallbacks: bool,
                           negate: bool, args: seq<Q>, kwargs: seq<(string, Value)>): (r: Result<Q>)
    requires NamingOk(s, loc) && |amb.order| > 0
    ensures !rewrite ==> r == Success(Negated(negate, QOf(args, kwargs)))
    ensures rewrite ==>
      match RewriteQ(s, loc, model, amb, fallbacks, QOf(args, kwargs))
      case Success(q) => r == Success(Negated(negate, QOf([q], [])))
      case Failure(e) => r == Failure(e)
  {
    if !rewrite then Success(Negated(negate, QOf(args, kwargs)))
    else
      match RewriteQ(s, loc, model, amb, fallbacks, QOf(args, kwargs))
      case Success(q) => Success(Negated(negate, QOf([q], [])))
      case Failure(e) => Failure(e)
  }
}

/** Django's `Q` objects and `F` expressions as trees of values.

    A `Q` is a leaf `(lookup key, value)` or a node joining its children with AND or OR,
    possibly negated. `q1 & q2` and `q1 | q2` build a binary node. An update value is a
    literal, an `F(name)` reference to another column, or an expression node combining
    such values. */
module QueryTree {
  import opened Common

  datatype Connector = AND | OR

  datatype Value =
    | Lit(p: Py)
    | F(name: string)
    | Expression(op: string, operands: seq<Value>)

  datatype Q =
    | Leaf(key: string, value: Value)
    | Node(connector: Connector, negated: bool, children: seq<Q>)

  /** `a & b`. */
  function And(a: Q, b: Q): Q {
    Node(AND, false, [a, b])
  }

  /** `a | b`. */
  function Or(a: Q, b: Q): Q {
    Node(OR, false, [a, b])
  }

  /** `Q(*args, **kwargs)`: the positional conditions followed by one leaf per keyword. */
  function QOf(args: seq<Q>, kwargs: seq<(string, Value)>): Q {
    Node(AND, false, args + seq(|kwargs|, i requires 0 <= i < |kwargs| => Leaf(kwargs[i].0, kwargs[i].1)))
  }

  /** `~q`. */
  function Invert(q: Q): Q {
    Node(AND, true, [q])
  }

  /** Whether a row satisfies the condition, given which leaves it satisfies. */
  predicate Eval(q: Q, sat: (string, Value) -> bool)
    decreases q
  {
    match q
    case Leaf(k, v) => sat(k, v)
    case Node(c, neg, ch) =>
      var combined :=
        if c == AND then forall i :: 0 <= i < |ch| ==> Eval(ch[i], sat)
        else exists i :: 0 <= i < |ch| && Eval(ch[i], sat);
      if neg then !combined else combined
  }

  lemma EvalAndOr(a: Q, b: Q, sat: (string, Value) -> bool)
    ensures Eval(And(a, b), sat) == (Eval(a, sat) && Eval(b, sat))
    ensures Eval(Or(a, b), sat) == (Eval(a, sat) || Eval(b, sat))
  {
    var ch := [a, b];
    assert ch[0] == a && ch[1] == b;
    assert (forall i :: 0 <= i < |ch| ==> Eval(ch[i], sat)) == (Eval(a, sat) && Eval(b, sat));
    assert (exists i :: 0 <= i < |ch| && Eval(ch[i], sat)) == (Eval(a, sat) || Eval(b, sat));
  }

  function Flatten<T>(xs: seq<seq<T>>): (r: seq<T>) {
    if xs == [] then [] else xs[0] + Flatten(xs[1..])
  }

  lemma FlattenAppend<T>(xs: seq<seq<T>>, ys: seq<seq<T>>)
    ensures Flatten(xs + ys) == Flatten(xs) + Flatten(ys)
  {
    if xs != [] {
      assert (xs + ys)[0] == xs[0];
      assert (xs + ys)[1..] == xs[1..] + ys;
      FlattenAppend(xs[1..], ys);
    } else {
      assert xs + ys == ys;
    }
  }

  /** The leaves of a condition, left to right. */
  function Leaves(q: Q): seq<(string, Value)>
    decreases q
  {
    match q
    case Leaf(k, v) => [(k, v)]
    case Node(_, _, ch) => Flatten(seq(|ch|, i requires 0 <= i < |ch| => Leaves(ch[i])))
  }

  lemma LeavesBinary(c: Connector, neg: bool, a: Q, b: Q)
    ensures Leaves(Node(c, neg, [a, b])) == Leaves(a) + Leaves(b)
  {
    var parts := seq(2, i requires 0 <= i < 2 => Leaves([a, b][i]));
    assert parts == [Leaves(a)] + [Leaves(b)];
    FlattenAppend([Leaves(a)], [Leaves(b)]);
  }

  /** The condition with every leaf key blanked out: the shape of the tree, its
      connectors, negations and values. */
  function EraseKeys(q: Q): Q
    decreases q
  {
    match q
    case Leaf(_, v) => Leaf("", v)
    case Node(c, neg, ch) => Node(c, neg, seq(|ch|, i requires 0 <= i < |ch| => EraseKeys(ch[i])))
  }

  /** The references `F(name)` inside a value, left to right. */
  function FNames(v: Value): seq<string>
    decreases v
  {
    match v
    case Lit(_) => []
    case F(n) => [n]
    case Expression(_, ops) => Flatten(seq(|ops|, i requires 0 <= i < |ops| => FNames(ops[i])))
  }

  /** The value with every referenced name blanked out: its shape and its literals. */
  function EraseNames(v: Value): Value
    decreases v
  {
    match v
    case Lit(_) => v
    case F(_) => F("")
    case Expression(op, ops) => Expression(op, seq(|ops|, i requires 0 <= i < |ops| => EraseNames(ops[i])))
  }
}

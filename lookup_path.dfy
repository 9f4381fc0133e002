/** Lookup keys are strings whose segments are separated by "__"
    ("author__name__startswith"). This module models Python's `str.split('__')`,
    `'__'.join(...)` and `str.rsplit('__', 1)` on them, with the facts the
    resolver needs about how a key splits. */
module LookupPath {
  import opened Common

  const Sep: string := "__"

  /** A separator starts at position `i` of `s`. */
  predicate SepAt(s: string, i: int) {
    0 <= i && i + 1 < |s| && s[i] == '_' && s[i + 1] == '_'
  }

  predicate HasSep(s: string) {
    exists i | 0 <= i < |s| :: SepAt(s, i)
  }

  /** The leftmost separator of `s` at or after position `k`. */
  function FindSepFrom(s: string, k: nat): (r: Option<nat>)
    requires k <= |s|
    ensures r.Some? ==> k <= r.value && SepAt(s, r.value)
    ensures r.Some? ==> forall j :: k <= j < r.value ==> !SepAt(s, j)
    ensures r.None? ==> forall j :: k <= j ==> !SepAt(s, j)
    decreases |s| - k
  {
    if k + 1 >= |s| then None
    else if s[k] == '_' && s[k + 1] == '_' then Some(k)
    else FindSepFrom(s, k + 1)
  }

  /** The leftmost separator of `s`, where `str.split` cuts first. */
  function FindSep(s: string): (r: Option<nat>)
    ensures r.None? <==> !HasSep(s)
    ensures r.Some? ==> SepAt(s, r.value) && forall j :: 0 <= j < r.value ==> !SepAt(s, j)
  {
    FindSepFrom(s, 0)
  }

  /** `s.split('__')`: cuts at the leftmost separator, then splits the rest. */
  function Split(s: string): (r: seq<string>)
    ensures |r| >= 1
    decreases |s|
  {
    match FindSep(s)
    case None => [s]
    case Some(i) => [s[..i]] + Split(s[i + 2..])
  }

  /** `'__'.join(ps)`. */
  function Join(ps: seq<string>): string {
    if |ps| == 0 then ""
    else if |ps| == 1 then ps[0]
    else ps[0] + Sep + Join(ps[1..])
  }

  /** `lookup_key.split('__')[0]`. */
  function Head(s: string): string {
    Split(s)[0]
  }

  /** `'__'.join(lookup_key.split('__')[1:])`: everything after the first separator. */
  function Tail(s: string): string {
    Join(Split(s)[1..])
  }

  /** Joining the pieces of a split gives back the key. */
  lemma {:induction false} JoinSplit(s: string)
    ensures Join(Split(s)) == s
    decreases |s|
  {
    match FindSep(s)
    case None =>
    case Some(i) =>
      var rest := s[i + 2..];
      JoinSplit(rest);
      var pieces := Split(s);
      assert pieces == [s[..i]] + Split(rest);
      assert pieces[1..] == Split(rest);
      if |Split(rest)| == 0 {
      } else {
        assert Join(pieces) == s[..i] + Sep + Join(Split(rest));
        assert s == s[..i] + Sep + rest;
      }
  }

  /** How a key falls apart into its first segment and the rest:
      without a separator the key is its own head and has an empty tail; with one,
      the head is the text before the leftmost separator and the tail the text after it. */
  lemma HeadTail(s: string)
    ensures !HasSep(s) ==> Split(s) == [s] && Head(s) == s && Tail(s) == ""
    ensures HasSep(s) ==> |Split(s)| > 1
    ensures HasSep(s) ==> s == Head(s) + Sep + Tail(s)
    ensures HasSep(s) ==> Head(s) == s[..FindSep(s).value] && Tail(s) == s[FindSep(s).value + 2..]
  {
    match FindSep(s)
    case None =>
    case Some(i) =>
      var rest := s[i + 2..];
      assert Split(s)[1..] == Split(rest);
      JoinSplit(rest);
      assert s == s[..i] + Sep + rest;
  }

  /** `|Tail(s)| + 2 <= |s|` whenever there is a separator. */
  lemma TailShorter(s: string)
    requires HasSep(s)
    ensures |Tail(s)| + 2 <= |s|
  {
    HeadTail(s);
  }

  /** The head of a key never contains a separator. */
  lemma HeadHasNoSep(s: string)
    ensures !HasSep(Head(s))
  {
    HeadTail(s);
    if HasSep(s) {
      var h := Head(s);
      assert forall j :: SepAt(h, j) ==> SepAt(s, j);
    }
  }

  /** A name without a separator followed by "__" and more text: the first separator
      sits at the end of the name (one position earlier when the name ends with '_'),
      so what follows it is at most one character longer than `rest`. */
  lemma SplitAfterName(n: string, rest: string)
    requires !HasSep(n)
    ensures HasSep(n + Sep + rest)
    ensures |Tail(n + Sep + rest)| <= |rest| + 1
    ensures (n == "" || n[|n| - 1] != '_') ==> Head(n + Sep + rest) == n && Tail(n + Sep + rest) == rest
  {
    var s := n + Sep + rest;
    assert SepAt(s, |n|);
    HeadTail(s);
    var i := FindSep(s).value;
    assert i <= |n|;
    assert forall j | 0 <= j < |n| - 1 :: SepAt(s, j) == SepAt(n, j);
    assert i + 1 >= |n|;
    if n == "" || n[|n| - 1] != '_' {
      assert n != "" ==> s[|n| - 1] == n[|n| - 1];
      assert i == |n|;
      assert s[..i] == n;
      assert s[i + 2..] == rest;
    }
  }

  /** The rightmost separator of `s` that starts below position `k`. */
  function FindLastSepBelow(s: string, k: nat): (r: Option<nat>)
    ensures r.Some? ==> r.value < k && SepAt(s, r.value)
    ensures r.Some? ==> forall j :: r.value < j < k ==> !SepAt(s, j)
    ensures r.None? ==> forall j :: 0 <= j < k ==> !SepAt(s, j)
  {
    if k == 0 then None
    else if SepAt(s, k - 1) then Some(k - 1)
    else FindLastSepBelow(s, k - 1)
  }

  /** `s.rsplit('__', 1)`: the text before the rightmost separator and, when there is
      one, the text after it. */
  function RSplitOnce(s: string): (r: (string, Option<string>))
    ensures r.1.None? <==> !HasSep(s)
    ensures r.1.None? ==> r.0 == s
    ensures r.1.Some? ==> s == r.0 + Sep + r.1.value && !HasSep(r.1.value)
  {
    match FindLastSepBelow(s, |s|)
    case None => (s, None)
    case Some(i) =>
      var after := s[i + 2..];
      assert s == s[..i] + Sep + after;
      assert forall j :: SepAt(after, j) ==> SepAt(s, i + 2 + j);
      (s[..i], Some(after))
  }
}

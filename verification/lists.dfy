/** `Array.prototype.filter`: the order-preserving sub-list of the elements
    that satisfy a predicate. Every list screen builds what it shows this way. */
module Lists {

  /** `r` is obtained from `s` by deleting elements, keeping the order. */
  ghost predicate SubList<T(!new)>(r: seq<T>, s: seq<T>)
    decreases |s|
  {
    if r == [] then true
    else if s == [] then false
    else (r[0] == s[0] && SubList(r[1..], s[1..])) || SubList(r, s[1..])
  }

  /** `s.filter(p)`. */
  function Filter<T(!new)>(p: T -> bool, s: seq<T>): (r: seq<T>)
    ensures |r| <= |s|
    ensures forall x :: x in r <==> x in s && p(x)
    ensures SubList(r, s)
    ensures forall x :: multiset(r)[x] == if p(x) then multiset(s)[x] else 0
  {
    if s == [] then []
    else if p(s[0]) then
      assert s == [s[0]] + s[1..];
      [s[0]] + Filter(p, s[1..])
    else
      assert s == [s[0]] + s[1..];
      Filter(p, s[1..])
  }

  /** A predicate every element satisfies keeps the whole list, in order. */
  lemma {:induction false} FilterKeepsAll<T(!new)>(p: T -> bool, s: seq<T>)
    requires forall x :: x in s ==> p(x)
    ensures Filter(p, s) == s
  {
    if s != [] {
      assert s == [s[0]] + s[1..];
      FilterKeepsAll(p, s[1..]);
    }
  }

  /** Filtering a concatenation filters each part: the relative order of
      the kept elements is the order of the input. */
  lemma {:induction false} FilterAppend<T(!new)>(p: T -> bool, a: seq<T>, b: seq<T>)
    ensures Filter(p, a + b) == Filter(p, a) + Filter(p, b)
  {
    if a == [] {
      assert a + b == b;
    } else {
      assert (a + b)[0] == a[0];
      assert (a + b)[1..] == a[1..] + b;
      FilterAppend(p, a[1..], b);
    }
  }

  /** Each element goes to exactly one side of a predicate and its negation. */
  lemma {:induction false} FilterPartition<T(!new)>(p: T -> bool, s: seq<T>)
    ensures |Filter(p, s)| + |Filter(x => !p(x), s)| == |s|
  {
    if s != [] {
      FilterPartition(p, s[1..]);
    }
  }
}

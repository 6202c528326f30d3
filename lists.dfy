/** The list operation the server code takes from the array-sugar
    package: `remove(x)` deletes the first occurrence of `x`, if any. */
module Lists {

  function Remove<T(==)>(xs: seq<T>, x: T): (r: seq<T>)
    ensures multiset(r) == multiset(xs) - multiset{x}
    decreases |xs|
  {
    if xs == [] then []
    else if xs[0] == x then
      assert xs == [x] + xs[1..];
      xs[1..]
    else
      assert xs == [xs[0]] + xs[1..];
      [xs[0]] + Remove(xs[1..], x)
  }

  /** Removal takes out the first occurrence and keeps the order of the
      rest: what comes before it and what comes after it. */
  lemma {:induction false} RemoveAt<T>(xs: seq<T>, x: T, i: nat)
    requires i < |xs| && xs[i] == x
    requires forall k :: 0 <= k < i ==> xs[k] != x
    ensures Remove(xs, x) == xs[..i] + xs[i + 1..]
    decreases i
  {
    if i > 0 {
      RemoveAt(xs[1..], x, i - 1);
      RemovePast(xs, x);
      HeadSplit(xs, i);
    }
  }

  /** Removal goes past a head that is not the value. */
  lemma RemovePast<T>(xs: seq<T>, x: T)
    requires xs != [] && xs[0] != x
    ensures Remove(xs, x) == [xs[0]] + Remove(xs[1..], x)
  {
  }

  /** Cutting at `i` after dropping the head. */
  lemma HeadSplit<T>(xs: seq<T>, i: nat)
    requires 0 < i < |xs|
    ensures [xs[0]] + (xs[1..][..i - 1] + xs[1..][i..]) == xs[..i] + xs[i + 1..]
  {
    assert xs[..i] == [xs[0]] + xs[1..][..i - 1];
    assert xs[i + 1..] == xs[1..][i..];
  }

  /** When `x` occurs, removal gives the list with its first occurrence
      cut out. */
  lemma RemoveFirst<T>(xs: seq<T>, x: T)
    requires x in xs
    ensures exists i :: 0 <= i < |xs| && xs[i] == x && x !in xs[..i] && Remove(xs, x) == xs[..i] + xs[i + 1..]
  {
    var i := FirstAt(xs, x);
    assert forall k :: 0 <= k < i ==> xs[k] in xs[..i];
    RemoveAt(xs, x, i);
  }

  /** The position of the first occurrence of `x`. */
  function FirstAt<T(==)>(xs: seq<T>, x: T): (i: nat)
    requires x in xs
    ensures i < |xs| && xs[i] == x && x !in xs[..i]
    decreases |xs|
  {
    if xs[0] == x then 0
    else
      assert x in xs[1..];
      var j := FirstAt(xs[1..], x);
      assert xs[..j + 1] == [xs[0]] + xs[1..][..j];
      j + 1
  }

  /** Removing an absent element changes nothing. */
  lemma {:induction false} RemoveAbsent<T>(xs: seq<T>, x: T)
    requires x !in xs
    ensures Remove(xs, x) == xs
    decreases |xs|
  {
    if xs != [] {
      assert x !in xs[1..];
      RemoveAbsent(xs[1..], x);
    }
  }

  /** Removal drops exactly one element when `x` is present. */
  lemma {:induction false} RemoveLength<T>(xs: seq<T>, x: T)
    ensures |Remove(xs, x)| == if x in xs then |xs| - 1 else |xs|
    decreases |xs|
  {
    if xs != [] && xs[0] != x {
      RemoveLength(xs[1..], x);
      assert x in xs <==> x in xs[1..];
    }
  }

  /** Removal adds no element. */
  lemma RemoveSubset<T>(xs: seq<T>, x: T, y: T)
    requires y in Remove(xs, x)
    ensures y in xs
  {
    assert multiset(Remove(xs, x))[y] > 0;
  }

  /** An element that occurs at most once is gone after its removal. */
  lemma RemoveOnce<T>(xs: seq<T>, x: T)
    requires multiset(xs)[x] <= 1
    ensures x !in Remove(xs, x)
  {
    assert multiset(Remove(xs, x))[x] == 0;
  }

  /** Elements other than the removed one keep their number of
      occurrences. */
  lemma RemoveOthers<T>(xs: seq<T>, x: T, y: T)
    requires y != x
    ensures multiset(Remove(xs, x))[y] == multiset(xs)[y]
    ensures y in Remove(xs, x) <==> y in xs
  {
    assert multiset(Remove(xs, x))[y] == multiset(xs)[y];
  }

  /** A sequence's multiset splits off its last element. */
  lemma MultisetLast<T>(s: seq<T>)
    requires s != []
    ensures multiset(s) == multiset(s[..|s| - 1]) + multiset{s[|s| - 1]}
  {
    assert s == s[..|s| - 1] + [s[|s| - 1]];
  }

  /** A sequence's multiset is the sum of those of its two parts. */
  lemma MultisetSplit<T>(s: seq<T>, n: nat)
    requires n <= |s|
    ensures multiset(s[..n]) + multiset(s[n..]) == multiset(s)
  {
    assert s == s[..n] + s[n..];
  }
}

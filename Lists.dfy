/**
 * The list operation the source borrows from java.util: `List.remove(Object)`,
 * which deletes the first element equal to its argument and does nothing when
 * there is none.
 */
module Lists {

  /** The position of the first occurrence of `x` in `xs`. */
  function IndexOf<T(==)>(xs: seq<T>, x: T): (i: nat)
    requires x in xs
    ensures i < |xs| && xs[i] == x
    ensures forall j :: 0 <= j < i ==> xs[j] != x
  {
    if xs[0] == x then 0 else 1 + IndexOf(xs[1..], x)
  }

  /** `xs` without its first occurrence of `x`; `xs` itself when `x` is absent. */
  function RemoveFirst<T(==)>(xs: seq<T>, x: T): (r: seq<T>)
    ensures x !in xs ==> r == xs
    ensures x in xs ==> |r| == |xs| - 1
  {
    if xs == [] then []
    else
      assert xs == [xs[0]] + xs[1..];
      if xs[0] == x then xs[1..]
      else [xs[0]] + RemoveFirst(xs[1..], x)
  }

  /** Removal deletes exactly the element at the first occurrence and keeps the order of the rest. */
  lemma RemoveFirstAt<T>(xs: seq<T>, x: T)
    requires x in xs
    ensures RemoveFirst(xs, x) == xs[..IndexOf(xs, x)] + xs[IndexOf(xs, x) + 1..]
  {
    RemoveFirstAtIndex(xs, x, IndexOf(xs, x));
  }

  lemma {:induction false} RemoveFirstAtIndex<T>(xs: seq<T>, x: T, i: nat)
    requires i < |xs| && xs[i] == x
    requires forall j :: 0 <= j < i ==> xs[j] != x
    ensures RemoveFirst(xs, x) == xs[..i] + xs[i + 1..]
  {
    if i == 0 {
      assert xs[..0] + xs[1..] == xs[1..];
    } else {
      var tail := xs[1..];
      RemoveFirstAtIndex(tail, x, i - 1);
      assert xs[..i] == [xs[0]] + tail[..i - 1];
      assert xs[i + 1..] == tail[i..];
    }
  }
}

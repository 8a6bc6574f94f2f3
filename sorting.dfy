/**
 * `Array.prototype.sort` with the comparator `(a, b) => a.price - b.price`,
 * which both resolvers apply to the array they have just filled: the array is
 * sorted in place into non-decreasing price order and keeps its elements.
 * The model sorts by insertion, adjacent swap by adjacent swap.
 */
module ArraySort {

  /** Non-decreasing by `price`. */
  ghost predicate SortedBy<T>(s: seq<T>, price: T -> int) {
    forall k, l :: 0 <= k < l < |s| ==> price(s[k]) <= price(s[l])
  }

  method SortByPrice<T>(a: array<T>, price: T -> int)
    modifies a
    ensures SortedBy(a[..], price)
    ensures multiset(a[..]) == multiset(old(a[..]))
  {
    for i := 0 to a.Length
      invariant SortedBy(a[..i], price)
      invariant multiset(a[..]) == multiset(old(a[..]))
    {
      InsertLast(a, i, price);
    }
    assert a[..a.Length] == a[..];
  }

  /**
   * A JavaScript array filled by `push` and then sorted: the pushed elements
   * are laid out in an array, which is sorted in place and read back.
   */
  method SortPushed<T>(pushed: seq<T>, price: T -> int) returns (sorted: seq<T>)
    ensures SortedBy(sorted, price)
    ensures multiset(sorted) == multiset(pushed)
    ensures |sorted| == |pushed|
  {
    var a := new T[|pushed|](i requires 0 <= i < |pushed| => pushed[i]);
    assert a[..] == pushed;
    SortByPrice(a, price);
    sorted := a[..];
    assert |sorted| == |multiset(sorted)| == |multiset(pushed)| == |pushed|;
  }

  /** Moves `a[i]` left past every larger price, so that `a[..i + 1]` is sorted. */
  method InsertLast<T>(a: array<T>, i: nat, price: T -> int)
    requires i < a.Length
    requires SortedBy(a[..i], price)
    modifies a
    ensures SortedBy(a[..i + 1], price)
    ensures multiset(a[..]) == multiset(old(a[..]))
    ensures a[i + 1..] == old(a[i + 1..])
  {
    var j := i;
    while j > 0 && price(a[j - 1]) > price(a[j])
      invariant 0 <= j <= i
      invariant forall k, l :: 0 <= k < l <= i && k != j && l != j ==> price(a[k]) <= price(a[l])
      invariant forall l :: j < l <= i ==> price(a[j]) <= price(a[l])
      invariant multiset(a[..]) == multiset(old(a[..]))
      invariant forall k :: i < k < a.Length ==> a[k] == old(a[k])
    {
      Swap(a, j - 1, j);
      j := j - 1;
    }
  }

  method Swap<T>(a: array<T>, i: nat, j: nat)
    requires i < j < a.Length
    modifies a
    ensures a[..] == old(a[..])[i := old(a[j])][j := old(a[i])]
    ensures forall k :: 0 <= k < a.Length && k != i && k != j ==> a[k] == old(a[k])
    ensures multiset(a[..]) == multiset(old(a[..]))
  {
    a[i], a[j] := a[j], a[i];
  }
}

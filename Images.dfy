/**
 * Product images and their ordering by `sort_order`, as the product page and the product card
 * sort them in place with `(a, b) => a.sort_order - b.sort_order`.
 */
module Images {
  datatype ProductImage = ProductImage(url: string, sortOrder: int)

  /** Ascending `sort_order`. */
  predicate SortedByOrder(s: seq<ProductImage>) {
    forall k, l :: 0 <= k < l < |s| ==> s[k].sortOrder <= s[l].sortOrder
  }

  /** The first image of a sorted list has the least `sort_order` of all. */
  lemma SortedHeadIsLeast(s: seq<ProductImage>, k: int)
    requires SortedByOrder(s) && 0 <= k < |s|
    ensures s[0].sortOrder <= s[k].sortOrder
  {
    if k > 0 {
      assert s[0].sortOrder <= s[k].sortOrder;
    }
  }

  /** Exchanges two entries of `a`. */
  method Swap(a: array<ProductImage>, i: int, j: int)
    requires 0 <= i < j < a.Length
    modifies a
    ensures a[i] == old(a[j]) && a[j] == old(a[i])
    ensures forall m :: 0 <= m < a.Length && m != i && m != j ==> a[m] == old(a[m])
    ensures multiset(a[..]) == multiset(old(a[..]))
  {
    a[i], a[j] := a[j], a[i];
  }

  /**
   * `Array.prototype.sort` with the `sort_order` comparator: afterwards the array holds the same
   * images, in ascending `sort_order`. Insertion sort moves each entry left past larger ones.
   */
  method SortBySortOrder(a: array<ProductImage>)
    modifies a
    ensures SortedByOrder(a[..])
    ensures multiset(a[..]) == multiset(old(a[..]))
  {
    var i := 0;
    while i < a.Length
      invariant 0 <= i <= a.Length
      invariant SortedByOrder(a[..i])
      invariant multiset(a[..]) == multiset(old(a[..]))
    {
      var j := i;
      while j > 0 && a[j - 1].sortOrder > a[j].sortOrder
        invariant 0 <= j <= i
        invariant forall k, l :: 0 <= k < l <= i && k != j && l != j ==> a[k].sortOrder <= a[l].sortOrder
        invariant forall l :: j < l <= i ==> a[j].sortOrder <= a[l].sortOrder
        invariant multiset(a[..]) == multiset(old(a[..]))
      {
        Swap(a, j - 1, j);
        j := j - 1;
      }
      i := i + 1;
    }
  }
}

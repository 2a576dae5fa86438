/**
 * Client-side sorting of the product list: copy the current products, sort the
 * copy by the chosen option, and store the copy.
 */
module Products {
  import opened Wrappers

  datatype Product = Product(id: int, name: string, price: real, image: string, slug: string, averageRating: Option<real>)

  /** The options that reorder the list; the others leave it as it is. */
  datatype Ordering = PriceAscending | PriceDescending | RatingDescending

  /** "price-asc", "price-desc" and "rating" reorder; "newest", "popular" and anything else do not. */
  function OrderingFor(sortBy: string): (r: Option<Ordering>)
    ensures r == Some(PriceAscending) <==> sortBy == "price-asc"
    ensures r == Some(PriceDescending) <==> sortBy == "price-desc"
    ensures r == Some(RatingDescending) <==> sortBy == "rating"
  {
    if sortBy == "price-asc" then Some(PriceAscending)
    else if sortBy == "price-desc" then Some(PriceDescending)
    else if sortBy == "rating" then Some(RatingDescending)
    else None
  }

  /** A missing rating counts as 0. */
  function RatingOrZero(p: Product): real {
    if p.averageRating.Some? then p.averageRating.value else 0.0
  }

  /** The sort key: the comparator of each option orders products by this value, ascending. */
  function Rank(p: Product, ordering: Ordering): real {
    match ordering
    case PriceAscending => p.price
    case PriceDescending => -p.price
    case RatingDescending => -RatingOrZero(p)
  }

  ghost predicate RankSorted(s: seq<Product>, ordering: Ordering) {
    forall i, j :: 0 <= i < j < |s| ==> Rank(s[i], ordering) <= Rank(s[j], ordering)
  }

  /** What sorted by rank means for each option, in the page's own terms. */
  lemma RankSortedMeaning(s: seq<Product>, ordering: Ordering)
    requires RankSorted(s, ordering)
    ensures ordering == PriceAscending ==> forall i, j :: 0 <= i < j < |s| ==> s[i].price <= s[j].price
    ensures ordering == PriceDescending ==> forall i, j :: 0 <= i < j < |s| ==> s[i].price >= s[j].price
    ensures ordering == RatingDescending ==> forall i, j :: 0 <= i < j < |s| ==> RatingOrZero(s[i]) >= RatingOrZero(s[j])
  {
    forall i, j | 0 <= i < j < |s| ensures Rank(s[i], ordering) <= Rank(s[j], ordering) {
    }
  }

  method Swap(a: array<Product>, i: int, j: int)
    requires 0 <= i < a.Length && 0 <= j < a.Length
    modifies a
    ensures a[i] == old(a[j]) && a[j] == old(a[i])
    ensures forall m :: 0 <= m < a.Length && m != i && m != j ==> a[m] == old(a[m])
    ensures multiset(a[..]) == old(multiset(a[..]))
  {
    a[i], a[j] := a[j], a[i];
  }

  /** Insertion sort of a whole array by rank: afterwards the ranks never decrease and the products are the same. */
  method SortByRank(a: array<Product>, ordering: Ordering)
    modifies a
    ensures RankSorted(a[..], ordering)
    ensures multiset(a[..]) == old(multiset(a[..]))
  {
    if a.Length == 0 { return; }
    var i := 1;
    while i < a.Length
      invariant 1 <= i <= a.Length
      invariant forall x, y :: 0 <= x < y < i ==> Rank(a[x], ordering) <= Rank(a[y], ordering)
      invariant multiset(a[..]) == old(multiset(a[..]))
    {
      var j := i;
      while j > 0 && Rank(a[j - 1], ordering) > Rank(a[j], ordering)
        invariant 0 <= j <= i
        invariant forall x, y :: 0 <= x < y <= i && y != j ==> Rank(a[x], ordering) <= Rank(a[y], ordering)
        invariant multiset(a[..]) == old(multiset(a[..]))
      {
        Swap(a, j - 1, j);
        j := j - 1;
      }
      i := i + 1;
    }
  }

  /**
   * Sorting works on a fresh copy: the current array is not touched, the result is a
   * permutation of it, ordered as the option asks, or an unchanged copy.
   */
  method SortProducts(products: array<Product>, sortBy: string) returns (sorted: array<Product>)
    ensures fresh(sorted)
    ensures multiset(sorted[..]) == multiset(products[..])
    ensures OrderingFor(sortBy).None? ==> sorted[..] == products[..]
    ensures OrderingFor(sortBy).Some? ==> RankSorted(sorted[..], OrderingFor(sortBy).value)
  {
    sorted := new Product[products.Length](i requires 0 <= i < products.Length reads products => products[i]);
    assert sorted[..] == products[..];
    var ordering := OrderingFor(sortBy);
    if ordering.Some? {
      SortByRank(sorted, ordering.value);
    }
  }
}

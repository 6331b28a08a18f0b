/** The catalogue's search of client/src/pages/ProductsPage.js: the effect
    that narrows the fetched products by name and price range and then
    sorts them by price. */
module ProductsPage {
  import opened Values
  import Seqs
  import Text

  /** A fetched product; `product_name` and `price` may be missing. */
  datatype Product = Product(id: int, productName: Option<string>, price: Option<real>)

  /** `sortBy`: 'price-low', 'price-high', or anything else ('newest'),
      which keeps the fetched order. */
  datatype SortBy = PriceLow | PriceHigh | Newest

  /** `product.price || 0`. */
  function PriceOf(p: Product): real
  {
    p.price.GetOr(0.0)
  }

  /** `(product.product_name || '').toLowerCase().includes(term.toLowerCase())`. */
  predicate NameMatches(p: Product, term: string)
  {
    Text.Contains(Text.Lower(p.productName.GetOr("")), Text.Lower(term))
  }

  /** A product survives both filters: its name matches a non-empty term,
      and its price lies within the range, both ends included. */
  predicate Selected(p: Product, term: string, lo: real, hi: real)
  {
    (term == "" || NameMatches(p, term)) && lo <= PriceOf(p) <= hi
  }

  function SearchTest(term: string): Product -> bool
  {
    (p: Product) => NameMatches(p, term)
  }

  function RangeTest(lo: real, hi: real): Product -> bool
  {
    (p: Product) => lo <= PriceOf(p) <= hi
  }

  function SelectedTest(term: string, lo: real, hi: real): Product -> bool
  {
    (p: Product) => Selected(p, term, lo, hi)
  }

  /** `compare(a, b) <= 0` for the two price comparators. */
  function Ascending(): (Product, Product) -> bool
  {
    (a: Product, b: Product) => PriceOf(a) - PriceOf(b) <= 0.0
  }

  function Descending(): (Product, Product) -> bool
  {
    (a: Product, b: Product) => PriceOf(b) - PriceOf(a) <= 0.0
  }

  /** The effect on `searchTerm`, `priceRange` and `sortBy`: each stage
      replaces `filtered`. The result keeps exactly the selected products,
      each as often as fetched, in the fetched order for 'newest' and
      ordered by price for the two price sorts. */
  method FilterProducts(products: seq<Product>, searchTerm: string, lo: real, hi: real, sortBy: SortBy)
    returns (filtered: seq<Product>)
    ensures multiset(filtered) == multiset(Seqs.Filter(products, SelectedTest(searchTerm, lo, hi)))
    ensures forall i :: 0 <= i < |filtered| ==> filtered[i] in products && Selected(filtered[i], searchTerm, lo, hi)
    ensures forall i :: 0 <= i < |products| && Selected(products[i], searchTerm, lo, hi) ==> products[i] in filtered
    ensures forall i :: 0 <= i < |filtered| ==> lo <= PriceOf(filtered[i]) <= hi
    ensures sortBy == Newest ==> filtered == Seqs.Filter(products, SelectedTest(searchTerm, lo, hi))
    ensures sortBy == PriceLow ==> PriceAscending(filtered)
    ensures sortBy == PriceHigh ==> PriceDescending(filtered)
  {
    ghost var selected := Seqs.Filter(products, SelectedTest(searchTerm, lo, hi));
    filtered := products;
    if searchTerm != "" {
      filtered := Seqs.Filter(filtered, SearchTest(searchTerm));
    }
    filtered := Seqs.Filter(filtered, RangeTest(lo, hi));
    FilterStages(products, searchTerm, lo, hi);
    assert filtered == selected;
    if sortBy == PriceLow {
      ghost var pre := filtered;
      filtered := Seqs.Sort(filtered, Ascending());
      AscendingOrder(pre, filtered);
    } else if sortBy == PriceHigh {
      ghost var pre := filtered;
      filtered := Seqs.Sort(filtered, Descending());
      DescendingOrder(pre, filtered);
    }
    SameElements(products, selected, filtered, searchTerm, lo, hi);
  }

  /** The two filter stages, the search one only for a non-empty term, keep
      exactly the selected products in the fetched order. */
  lemma FilterStages(products: seq<Product>, term: string, lo: real, hi: real)
    ensures Seqs.Filter(if term != "" then Seqs.Filter(products, SearchTest(term)) else products, RangeTest(lo, hi))
      == Seqs.Filter(products, SelectedTest(term, lo, hi))
  {
    if term != "" {
      Seqs.FilterFilter(products, SearchTest(term), RangeTest(lo, hi), SelectedTest(term, lo, hi));
    } else {
      SameFilter(products, RangeTest(lo, hi), SelectedTest(term, lo, hi));
    }
  }

  /** Prices never fall along `s`. */
  predicate PriceAscending(s: seq<Product>)
  {
    forall i, j :: 0 <= i < j < |s| ==> PriceOf(s[i]) <= PriceOf(s[j])
  }

  /** Prices never rise along `s`. */
  predicate PriceDescending(s: seq<Product>)
  {
    forall i, j :: 0 <= i < j < |s| ==> PriceOf(s[i]) >= PriceOf(s[j])
  }

  /** 'price-low' orders by ascending price. */
  lemma AscendingOrder(s: seq<Product>, r: seq<Product>)
    requires r == Seqs.Sort(s, Ascending())
    ensures PriceAscending(r)
  {
    Seqs.SortSorted(s, Ascending());
  }

  /** 'price-high' orders by descending price. */
  lemma DescendingOrder(s: seq<Product>, r: seq<Product>)
    requires r == Seqs.Sort(s, Descending())
    ensures PriceDescending(r)
  {
    Seqs.SortSorted(s, Descending());
  }

  /** Filters by tests that agree everywhere give the same list. */
  lemma {:induction false} SameFilter(s: seq<Product>, p: Product -> bool, q: Product -> bool)
    requires forall x :: p(x) == q(x)
    ensures Seqs.Filter(s, p) == Seqs.Filter(s, q)
  {
    if s != [] {
      SameFilter(s[1..], p, q);
    }
  }

  /** A permutation of the selection holds the selected products and only
      them. */
  lemma SameElements(products: seq<Product>, selected: seq<Product>, r: seq<Product>, term: string, lo: real, hi: real)
    requires selected == Seqs.Filter(products, SelectedTest(term, lo, hi))
    requires multiset(r) == multiset(selected)
    ensures forall i :: 0 <= i < |r| ==> r[i] in products && Selected(r[i], term, lo, hi)
    ensures forall i :: 0 <= i < |products| && Selected(products[i], term, lo, hi) ==> products[i] in r
  {
    forall i | 0 <= i < |r| ensures r[i] in products && Selected(r[i], term, lo, hi) {
      assert r[i] in multiset(r);
      assert r[i] in multiset(selected);
    }
    forall i | 0 <= i < |products| && Selected(products[i], term, lo, hi) ensures products[i] in r {
      assert products[i] in selected;
      assert products[i] in multiset(selected);
      assert products[i] in multiset(r);
    }
  }

  /** With no search term and a range covering every price, 'newest' shows
      the catalogue exactly as fetched. */
  lemma NoFilterShowsAll(products: seq<Product>, lo: real, hi: real)
    requires forall i :: 0 <= i < |products| ==> lo <= PriceOf(products[i]) <= hi
    ensures Seqs.Filter(products, SelectedTest("", lo, hi)) == products
  {
    Seqs.FilterKeepsAll(products, SelectedTest("", lo, hi));
  }
}

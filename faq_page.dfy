/** The FAQ of client/src/pages/FAQPage.js: the search that narrows every
    category to its matching questions and hides the categories left empty,
    and the accordion's expanded flags keyed by category and item position. */
module FAQPage {
  import Seqs
  import Text

  datatype FaqItem = FaqItem(question: string, answer: string)

  datatype FaqCategory = FaqCategory(title: string, items: seq<FaqItem>)

  /** The question or the answer contains the term, ignoring case. */
  predicate ItemMatches(item: FaqItem, term: string)
  {
    Text.Contains(Text.Lower(item.question), Text.Lower(term))
    || Text.Contains(Text.Lower(item.answer), Text.Lower(term))
  }

  function ItemTest(term: string): FaqItem -> bool
  {
    (item: FaqItem) => ItemMatches(item, term)
  }

  /** `{...category, items: category.items.filter(...)}`. */
  function NarrowCategory(c: FaqCategory, term: string): FaqCategory
  {
    c.(items := Seqs.Filter(c.items, ItemTest(term)))
  }

  function HasItems(c: FaqCategory): bool
  {
    |c.items| > 0
  }

  /** The `.map(...)` stage. */
  function NarrowAll(cats: seq<FaqCategory>, term: string): (r: seq<FaqCategory>)
    ensures |r| == |cats|
    ensures forall k :: 0 <= k < |cats| ==> r[k] == NarrowCategory(cats[k], term)
  {
    seq(|cats|, k requires 0 <= k < |cats| => NarrowCategory(cats[k], term))
  }

  /** `filteredCategories`: the narrowed categories that kept an item. */
  function FilteredCategories(cats: seq<FaqCategory>, term: string): seq<FaqCategory>
  {
    Seqs.Filter(NarrowAll(cats, term), HasItems)
  }

  /** Every shown category is a listed one, under its own title, narrowed to
      its matching items and holding at least one. */
  lemma ShownAreNarrowed(cats: seq<FaqCategory>, term: string)
    ensures forall r :: r in FilteredCategories(cats, term) ==>
      |r.items| > 0 && exists k :: 0 <= k < |cats| && r == NarrowCategory(cats[k], term)
  {
    var narrowed := NarrowAll(cats, term);
    forall r | r in FilteredCategories(cats, term)
      ensures |r.items| > 0 && exists k :: 0 <= k < |cats| && r == NarrowCategory(cats[k], term)
    {
      var k :| 0 <= k < |narrowed| && narrowed[k] == r;
    }
  }

  /** Every item shown matches the search. */
  lemma ShownItemsMatch(cats: seq<FaqCategory>, term: string)
    ensures forall r, j :: r in FilteredCategories(cats, term) && 0 <= j < |r.items| ==>
      ItemMatches(r.items[j], term)
  {
    ShownAreNarrowed(cats, term);
    forall r, j | r in FilteredCategories(cats, term) && 0 <= j < |r.items|
      ensures ItemMatches(r.items[j], term)
    {
      var k :| 0 <= k < |cats| && r == NarrowCategory(cats[k], term);
      assert r.items[j] in Seqs.Filter(cats[k].items, ItemTest(term));
    }
  }

  /** A listed category with a matching item is shown. */
  lemma MatchingCategoryShown(cats: seq<FaqCategory>, term: string, k: nat, j: nat)
    requires k < |cats| && j < |cats[k].items| && ItemMatches(cats[k].items[j], term)
    ensures NarrowCategory(cats[k], term) in FilteredCategories(cats, term)
  {
    var narrowed := NarrowAll(cats, term);
    assert cats[k].items[j] in Seqs.Filter(cats[k].items, ItemTest(term));
    assert narrowed[k] == NarrowCategory(cats[k], term);
    assert HasItems(narrowed[k]);
  }

  /** An empty search shows every category in full, in order, when no
      category is empty. */
  lemma EmptySearchShowsAll(cats: seq<FaqCategory>)
    requires forall k :: 0 <= k < |cats| ==> |cats[k].items| > 0
    ensures FilteredCategories(cats, "") == cats
  {
    assert Text.Lower("") == "";
    forall k | 0 <= k < |cats| ensures NarrowCategory(cats[k], "") == cats[k] {
      forall j | 0 <= j < |cats[k].items| ensures ItemMatches(cats[k].items[j], "") {
        Text.ContainsEmpty(Text.Lower(cats[k].items[j].question));
      }
      Seqs.FilterKeepsAll(cats[k].items, ItemTest(""));
    }
    assert NarrowAll(cats, "") == cats;
    Seqs.FilterKeepsAll(cats, HasItems);
  }

  /** The accordion key `${categoryIndex}-${itemIndex}`. */
  function Key(c: nat, i: nat): string
  {
    Text.ShowNat(c) + "-" + Text.ShowNat(i)
  }

  /** `expandedItems[key]` read as a truth value: a missing key is closed. */
  predicate IsExpanded(m: map<string, bool>, key: string)
  {
    key in m && m[key]
  }

  /** `toggleExpand(categoryIndex, itemIndex)`: the item's key is set to the
      negation of what it showed; every other entry is kept. */
  function ToggleExpand(m: map<string, bool>, c: nat, i: nat): (r: map<string, bool>)
    ensures IsExpanded(r, Key(c, i)) == !IsExpanded(m, Key(c, i))
    ensures Key(c, i) in r
    ensures forall k :: k != Key(c, i) ==> (k in r <==> k in m) && (k in m ==> r[k] == m[k])
  {
    m[Key(c, i) := !IsExpanded(m, Key(c, i))]
  }

  /** The position of the first '-' in `s`, or its length when there is
      none. */
  function FirstDash(s: string): (n: nat)
    ensures n <= |s|
  {
    if s == [] || s[0] == '-' then 0 else 1 + FirstDash(s[1..])
  }

  /** A key's first '-' follows the digits of the category index. */
  lemma {:induction false} FirstDashAfterDigits(a: string, x: string)
    requires forall j :: 0 <= j < |a| ==> Text.IsDigit(a[j])
    ensures FirstDash(a + "-" + x) == |a|
  {
    if a != [] {
      assert (a + "-" + x)[1..] == a[1..] + "-" + x;
      FirstDashAfterDigits(a[1..], x);
    }
  }

  /** Different positions have different keys, so toggling one item never
      opens or closes another. */
  lemma KeyInjective(c: nat, i: nat, c': nat, i': nat)
    requires Key(c, i) == Key(c', i')
    ensures c == c' && i == i'
  {
    var a, b := Text.ShowNat(c), Text.ShowNat(c');
    var k := Key(c, i);
    FirstDashAfterDigits(a, Text.ShowNat(i));
    FirstDashAfterDigits(b, Text.ShowNat(i'));
    assert a == k[..|a|] == b;
    assert Text.ShowNat(i) == k[|a| + 1..] == Text.ShowNat(i');
    Text.ParseShowNat(c);
    Text.ParseShowNat(c');
    Text.ParseShowNat(i);
    Text.ParseShowNat(i');
  }

  /** Toggling an item leaves the shown state of every other item. */
  lemma ToggleOthers(m: map<string, bool>, c: nat, i: nat, c': nat, i': nat)
    requires c != c' || i != i'
    ensures IsExpanded(ToggleExpand(m, c, i), Key(c', i')) == IsExpanded(m, Key(c', i'))
  {
    if Key(c, i) == Key(c', i') {
      KeyInjective(c, i, c', i');
    }
  }

  /** Toggling the same item twice shows everything as it was. */
  lemma ToggleTwice(m: map<string, bool>, c: nat, i: nat)
    ensures forall k :: IsExpanded(ToggleExpand(ToggleExpand(m, c, i), c, i), k) == IsExpanded(m, k)
  {
  }
}

/** The seller's product list of client/src/pages/seller/ManageProducts.js:
    search, status filter and sort, inline price/cost/quantity editing,
    status toggle, deletion, the header totals and the CSV export. */
module ManageProducts {
  import opened Values
  import Seqs
  import Text

  datatype ProductStatus = Active | Inactive

  /** `rating` is kept in tenths (4.8 is 48); every other number is whole. */
  datatype Product = Product(
    id: int, name: string, category: string, price: int, costPrice: int, gst: int,
    quantity: int, unit: string, status: ProductStatus, views: int, sales: int,
    rating: nat, hsnCode: string, image: string)

  datatype StatusFilter = All | Only(status: ProductStatus)

  /** The sort select: 'price', 'sales', 'quantity', or by name for
      anything else. */
  datatype SortKey = ByPrice | BySales | ByQuantity | ByName

  /** `editData`: the fields set so far. `handleEdit` copies every field of
      the product; the inputs then set `price`, `costPrice` or `quantity`. */
  datatype EditData = EditData(
    id: Option<int>, name: Option<string>, category: Option<string>, price: Option<int>,
    costPrice: Option<int>, gst: Option<int>, quantity: Option<int>, unit: Option<string>,
    status: Option<ProductStatus>, views: Option<int>, sales: Option<int>, rating: Option<nat>,
    hsnCode: Option<string>, image: Option<string>)

  const NoEdit := EditData(None, None, None, None, None, None, None, None, None, None, None, None, None, None)

  /** The page's state cells. */
  datatype PageState = PageState(
    products: seq<Product>, searchTerm: string, filterStatus: StatusFilter, sortBy: SortKey,
    editingId: Option<int>, editData: EditData, showDeleteConfirm: Option<int>)

  /** The filter's test: name or category contains the term ignoring case,
      and the status matches unless the filter is 'all'. */
  predicate Matches(p: Product, term: string, filter: StatusFilter)
  {
    (Text.Contains(Text.Lower(p.name), Text.Lower(term)) || Text.Contains(Text.Lower(p.category), Text.Lower(term)))
    && (filter.All? || p.status == filter.status)
  }

  function MatchesTest(term: string, filter: StatusFilter): Product -> bool
  {
    (p: Product) => Matches(p, term, filter)
  }

  /** `compare(a, b) <= 0` for the sort's comparator: descending price,
      sales or quantity, or ascending name. */
  function Le(key: SortKey): (Product, Product) -> bool
  {
    match key
    case ByPrice => (a: Product, b: Product) => b.price - a.price <= 0
    case BySales => (a: Product, b: Product) => b.sales - a.sales <= 0
    case ByQuantity => (a: Product, b: Product) => b.quantity - a.quantity <= 0
    case ByName => (a: Product, b: Product) => Text.LexLe(a.name, b.name)
  }

  /** Each of the four comparators orders products consistently. */
  lemma LeTotalPreorder(key: SortKey)
    ensures Seqs.TotalPreorder(Le(key))
  {
    if key.ByName? {
      forall a: Product, b: Product ensures Le(key)(a, b) || Le(key)(b, a) {
        Text.LexTotal(a.name, b.name);
      }
      forall a: Product, b: Product, c: Product | Le(key)(a, b) && Le(key)(b, c) ensures Le(key)(a, c) {
        Text.LexTrans(a.name, b.name, c.name);
      }
    }
  }

  /** `filteredProducts`. */
  function FilteredProducts(products: seq<Product>, term: string, filter: StatusFilter, key: SortKey): (r: seq<Product>)
    ensures multiset(r) == multiset(Seqs.Filter(products, MatchesTest(term, filter)))
  {
    Seqs.Sort(Seqs.Filter(products, MatchesTest(term, filter)), Le(key))
  }

  /** The list shown holds exactly the matching products, each as often as
      in the catalogue, ordered by the chosen key: for 'price' from the
      dearest down, and so on. */
  lemma FilteredProductsSpec(products: seq<Product>, term: string, filter: StatusFilter, key: SortKey)
    ensures var r := FilteredProducts(products, term, filter, key);
      && (forall i :: 0 <= i < |r| ==> r[i] in products && Matches(r[i], term, filter))
      && (forall i :: 0 <= i < |products| && Matches(products[i], term, filter) ==> products[i] in r)
      && Seqs.SortedBy(r, Le(key))
    ensures key == ByPrice ==> var r := FilteredProducts(products, term, filter, key);
      forall i, j :: 0 <= i < j < |r| ==> r[i].price >= r[j].price
  {
    var f := Seqs.Filter(products, MatchesTest(term, filter));
    var r := FilteredProducts(products, term, filter, key);
    LeTotalPreorder(key);
    Seqs.SortSorted(f, Le(key));
    forall i | 0 <= i < |r| ensures r[i] in products && Matches(r[i], term, filter) {
      assert r[i] in multiset(r);
      assert r[i] in multiset(f);
    }
    forall i | 0 <= i < |products| && Matches(products[i], term, filter) ensures products[i] in r {
      assert products[i] in f;
      assert products[i] in multiset(f);
      assert products[i] in multiset(r);
    }
  }

  /** `{...p, ...editData}`: the fields set in `editData` win. */
  function Merge(p: Product, e: EditData): Product
  {
    Product(e.id.GetOr(p.id), e.name.GetOr(p.name), e.category.GetOr(p.category),
      e.price.GetOr(p.price), e.costPrice.GetOr(p.costPrice), e.gst.GetOr(p.gst),
      e.quantity.GetOr(p.quantity), e.unit.GetOr(p.unit), e.status.GetOr(p.status),
      e.views.GetOr(p.views), e.sales.GetOr(p.sales), e.rating.GetOr(p.rating),
      e.hsnCode.GetOr(p.hsnCode), e.image.GetOr(p.image))
  }

  /** `handleEdit(product)`: edit mode for the product, with a copy of all
      its fields. */
  function HandleEdit(st: PageState, p: Product): (r: PageState)
    ensures Merge(p, r.editData) == p
    ensures forall q :: Merge(q, r.editData) == p
    ensures r.editingId == Some(p.id) && r.products == st.products
  {
    st.(editingId := Some(p.id), editData := EditData(Some(p.id), Some(p.name), Some(p.category),
      Some(p.price), Some(p.costPrice), Some(p.gst), Some(p.quantity), Some(p.unit), Some(p.status),
      Some(p.views), Some(p.sales), Some(p.rating), Some(p.hsnCode), Some(p.image)))
  }

  /** The edit inputs: price, cost price and quantity. */
  function EditPrice(st: PageState, v: int): PageState
  {
    st.(editData := st.editData.(price := Some(v)))
  }

  function EditCostPrice(st: PageState, v: int): PageState
  {
    st.(editData := st.editData.(costPrice := Some(v)))
  }

  function EditQuantity(st: PageState, v: int): PageState
  {
    st.(editData := st.editData.(quantity := Some(v)))
  }

  /** `handleSaveEdit(id)`: the edit goes into the products with that id
      only, and edit mode ends. */
  function HandleSaveEdit(st: PageState, id: int): (r: PageState)
    ensures |r.products| == |st.products| && r.editingId == None
    ensures forall i :: 0 <= i < |st.products| ==>
      r.products[i] == if st.products[i].id == id then Merge(st.products[i], st.editData) else st.products[i]
  {
    st.(products := seq(|st.products|, i requires 0 <= i < |st.products| =>
      if st.products[i].id == id then Merge(st.products[i], st.editData) else st.products[i]),
      editingId := None)
  }

  /** Editing a product and saving it with a new price changes that
      product's price and nothing else in the catalogue. */
  lemma EditThenSave(st: PageState, k: int, v: int)
    requires 0 <= k < |st.products|
    ensures var p := st.products[k];
      var r := HandleSaveEdit(EditPrice(HandleEdit(st, p), v), p.id);
      (forall i :: 0 <= i < |st.products| ==>
        r.products[i] == if st.products[i].id == p.id then p.(price := v) else st.products[i])
      && r.editingId == None
  {
  }

  /** `handleDelete(id)`: drops the products with that id and closes the
      confirmation. */
  function HandleDelete(st: PageState, id: int): (r: PageState)
    ensures forall i :: 0 <= i < |r.products| ==> r.products[i].id != id && r.products[i] in st.products
    ensures forall i :: 0 <= i < |st.products| && st.products[i].id != id ==> st.products[i] in r.products
    ensures r.showDeleteConfirm == None
  {
    st.(products := Seqs.Filter(st.products, (p: Product) => p.id != id), showDeleteConfirm := None)
  }

  function Flip(s: ProductStatus): ProductStatus
  {
    if s == Active then Inactive else Active
  }

  /** `handleStatusToggle(id)`. */
  function ToggleStatus(products: seq<Product>, id: int): (r: seq<Product>)
    ensures |r| == |products|
    ensures forall i :: 0 <= i < |r| ==>
      r[i] == if products[i].id == id then products[i].(status := Flip(products[i].status)) else products[i]
  {
    seq(|products|, i requires 0 <= i < |products| =>
      if products[i].id == id then products[i].(status := Flip(products[i].status)) else products[i])
  }

  /** A toggle changes the status of the products with that id and nothing
      else, and toggling twice restores the list. */
  lemma ToggleTwice(products: seq<Product>, id: int)
    ensures ToggleStatus(ToggleStatus(products, id), id) == products
    ensures forall i :: 0 <= i < |products| && products[i].id == id ==>
      ToggleStatus(products, id)[i].status != products[i].status
  {
    var once := ToggleStatus(products, id);
    var twice := ToggleStatus(once, id);
    assert forall i :: 0 <= i < |products| ==> twice[i] == products[i];
  }

  function Sales(p: Product): int { p.sales }
  function RevenueOf(p: Product): int { p.price * p.sales }

  /** The header's three figures over the shown list: `totalProducts`,
      `totalSales` and `totalRevenue`. */
  datatype Totals = Totals(totalProducts: nat, totalSales: int, totalRevenue: int)

  function HeaderTotals(shown: seq<Product>): Totals
  {
    Totals(|shown|, Seqs.SumOf(shown, Sales), Seqs.SumOf(shown, RevenueOf))
  }

  /** The header totals count only the products the filter keeps, and the
      chosen sort does not change them. */
  lemma HeaderTotalsIgnoreSort(products: seq<Product>, term: string, filter: StatusFilter, key: SortKey)
    ensures var f := Seqs.Filter(products, MatchesTest(term, filter));
      HeaderTotals(FilteredProducts(products, term, filter, key)) ==
        Totals(|f|, Seqs.SumOf(f, Sales), Seqs.SumOf(f, RevenueOf))
  {
    var f := Seqs.Filter(products, MatchesTest(term, filter));
    Seqs.SumOfSort(f, Le(key), Sales);
    Seqs.SumOfSort(f, Le(key), RevenueOf);
  }

  /** A rating in tenths the way JavaScript prints the number: "4.8", or
      "5" for a whole one. */
  function ShowRating(tenths: nat): string
  {
    if tenths % 10 == 0 then Text.ShowNat(tenths / 10)
    else Text.ShowNat(tenths / 10) + "." + [Text.Digit(tenths % 10)]
  }

  const ExportHeader: seq<string> :=
    ["Product Name", "Category", "Price (‚Çπ)", "Cost Price (‚Çπ)", "GST %", "Quantity", "Sales", "Rating"]

  function ExportRow(p: Product): (row: seq<string>)
    ensures |row| == 8
  {
    [p.name, p.category, Text.ShowInt(p.price), Text.ShowInt(p.costPrice), Text.ShowInt(p.gst),
     Text.ShowInt(p.quantity), Text.ShowInt(p.sales), ShowRating(p.rating)]
  }

  /** The exported rows: the header, then one row per displayed product. */
  function ExportRows(shown: seq<Product>): seq<seq<string>>
  {
    [ExportHeader] + ProductLines(shown)
  }

  lemma ExportRowsShape(shown: seq<Product>)
    ensures var rows := ExportRows(shown);
      |rows| == |shown| + 1 && rows[0] == ExportHeader
      && forall i :: 1 <= i < |rows| ==> rows[i] == ExportRow(shown[i - 1])
  {
    Prepended(ExportHeader, ProductLines(shown));
  }

  /** Indexing a sequence with one element put in front. */
  lemma Prepended<T>(h: T, t: seq<T>)
    ensures |[h] + t| == |t| + 1 && ([h] + t)[0] == h
    ensures forall i :: 1 <= i <= |t| ==> ([h] + t)[i] == t[i - 1]
  {
  }

  /** `filteredProducts.map(p => [...])`. */
  function ProductLines(shown: seq<Product>): (rows: seq<seq<string>>)
    ensures |rows| == |shown|
    ensures forall i :: 0 <= i < |shown| ==> rows[i] == ExportRow(shown[i])
  {
    seq(|shown|, i requires 0 <= i < |shown| => ExportRow(shown[i]))
  }

  /** `exportToCSV()`: the CSV text of the list as displayed. */
  function ExportToCsv(st: PageState): string
  {
    Text.CsvText(ExportRows(FilteredProducts(st.products, st.searchTerm, st.filterStatus, st.sortBy)))
  }

  /** The export has the header line and then one line per displayed
      product, in display order, provided no name or category holds a line
      break (fields are not quoted). */
  lemma ExportShape(st: PageState)
    requires forall i :: 0 <= i < |st.products| ==> NoBreaks(st.products[i])
    ensures Text.Count('\n', ExportToCsv(st)) == |FilteredProducts(st.products, st.searchTerm, st.filterStatus, st.sortBy)|
  {
    var shown := FilteredProducts(st.products, st.searchTerm, st.filterStatus, st.sortBy);
    FilteredProductsSpec(st.products, st.searchTerm, st.filterStatus, st.sortBy);
    ShownLackBreaks(st.products, shown);
    CsvLinesOfShown(shown);
  }

  lemma ShownLackBreaks(products: seq<Product>, shown: seq<Product>)
    requires forall i :: 0 <= i < |products| ==> NoBreaks(products[i])
    requires forall i :: 0 <= i < |shown| ==> shown[i] in products
    ensures forall i :: 0 <= i < |shown| ==> NoBreaks(shown[i])
  {
    forall i | 0 <= i < |shown| ensures NoBreaks(shown[i]) {
      var k :| 0 <= k < |products| && products[k] == shown[i];
    }
  }

  /** The CSV text of a list whose names and categories lack line breaks
      has one line break per listed product. */
  lemma CsvLinesOfShown(shown: seq<Product>)
    requires forall i :: 0 <= i < |shown| ==> NoBreaks(shown[i])
    ensures Text.Count('\n', Text.CsvText(ExportRows(shown))) == |shown|
  {
    ExportRowsShape(shown);
    RowsLackBreaks(shown);
    Text.CsvLines(ExportRows(shown));
  }

  /** Name and category hold no line break. */
  predicate NoBreaks(p: Product)
  {
    Text.Count('\n', p.name) == 0 && Text.Count('\n', p.category) == 0
  }

  lemma RowsLackBreaks(shown: seq<Product>)
    requires forall i :: 0 <= i < |shown| ==> NoBreaks(shown[i])
    ensures var rows := ExportRows(shown);
      forall i, j :: 0 <= i < |rows| && 0 <= j < |rows[i]| ==> Text.Count('\n', rows[i][j]) == 0
  {
    var rows := ExportRows(shown);
    ExportRowsShape(shown);
    forall i, j | 0 <= i < |rows| && 0 <= j < |rows[i]| ensures Text.Count('\n', rows[i][j]) == 0 {
      if i == 0 {
        HeaderPlain(j);
      } else {
        RowPlain(shown[i - 1], j);
      }
    }
  }

  lemma HeaderPlain(j: int)
    requires 0 <= j < |ExportHeader|
    ensures Text.Count('\n', ExportHeader[j]) == 0
  {
    Text.NoCount('\n', ExportHeader[j]);
  }

  lemma RowPlain(p: Product, j: int)
    requires NoBreaks(p) && 0 <= j < 8
    ensures Text.Count('\n', ExportRow(p)[j]) == 0
  {
    if j >= 2 {
      RowNumbersPlain(p, j);
    }
  }

  lemma RowNumbersPlain(p: Product, j: int)
    requires 2 <= j < 8
    ensures Text.Count('\n', ExportRow(p)[j]) == 0
  {
    var f := ExportRow(p)[j];
    if j < 7 {
      Text.ShowIntPlain([p.price, p.costPrice, p.gst, p.quantity, p.sales][j - 2]);
    } else {
      var whole := Text.ShowNat(p.rating / 10);
      assert forall k :: 0 <= k < |whole| ==> whole[k] != '\n';
      Text.NoCount('\n', f);
    }
  }
}

/** The seller back end of server/controller/seller.controller.js. The MySQL
    tables the handlers read and write are held in memory by a `SellerStore`;
    each SQL statement is modelled by its effect on them. The clock is a
    parameter (`now`), and so is the payout number that the source takes
    from `Date.now()`. */
module SellerController {
  import opened Values
  import Text
  import Seqs

  // ---------------------------------------------------------------------
  // Request values

  /** A value of a parsed JSON request body, or a value written to a table
      cell. `NaN` is JavaScript's NaN and `Time(t)` a timestamp read from
      the clock. */
  datatype Val = Undefined | Null | Bool(b: bool) | Num(n: real) | NaN | Str(s: string) | List(items: seq<Val>) | Time(t: int)

  /** A request body: its entries in order. */
  type Body = seq<(string, Val)>

  /** `req.body.key`: the value of the first entry with that key. */
  function Get(body: Body, key: string): Val
  {
    if body == [] then Undefined
    else if body[0].0 == key then body[0].1
    else Get(body[1..], key)
  }

  /** JavaScript truthiness: `undefined`, `null`, `false`, `0`, `NaN` and
      `''` are falsy; everything else, an empty array included, is truthy. */
  predicate Truthy(v: Val)
  {
    match v
    case Undefined => false
    case Null => false
    case Bool(b) => b
    case Num(n) => n != 0.0
    case NaN => false
    case Str(s) => s != ""
    case List(_) => true
    case Time(_) => true
  }

  /** `a || b`. */
  function Or(a: Val, b: Val): Val
  {
    if Truthy(a) then a else b
  }

  /** A non-empty run of decimal digits. */
  predicate DigitString(s: string)
  {
    |s| > 0 && forall i :: 0 <= i < |s| ==> Text.IsDigit(s[i])
  }

  /** The number JavaScript's arithmetic makes of a value; `None` is NaN.
      Of strings only the empty one and plain digit strings are read. */
  function ToNumber(v: Val): Option<real>
  {
    match v
    case Undefined => None
    case Null => Some(0.0)
    case Bool(b) => Some(if b then 1.0 else 0.0)
    case Num(n) => Some(n)
    case NaN => None
    case Str(s) =>
      if s == "" then Some(0.0)
      else if DigitString(s) then Some(Text.ParseNat(s) as real)
      else None
    case List(items) => if items == [] then Some(0.0) else None
    case Time(_) => None
  }

  /** `parseFloat(v)`; `None` is NaN. Of strings only plain digit strings
      are read. */
  function ParseFloat(v: Val): Option<real>
  {
    match v
    case Num(n) => Some(n)
    case Str(s) => if DigitString(s) then Some(Text.ParseNat(s) as real) else None
    case _ => None
  }

  /** The value the driver writes for `v`: `undefined` becomes NULL. */
  function SqlValue(v: Val): Val
  {
    if v == Undefined then Null else v
  }

  /** The status code and message of a handler's JSON reply. */
  datatype Response = Response(code: int, message: string)

  // ---------------------------------------------------------------------
  // Table rows

  /** A `products` row: its id and the columns written so far; a column
      that is absent still holds its default. */
  datatype ProductRow = ProductRow(id: int, cols: map<string, Val>)

  /** The server's order states; the server spells the second 'in_transit'. */
  datatype ServerStatus = Processing | InTransit | Delivered | Cancelled

  /** The `orders` columns the handlers read or write. */
  datatype OrderRow = OrderRow(
    id: int, sellerId: int, totalAmount: real, status: ServerStatus,
    shippedDate: Option<int>, deliveryDate: Option<int>)

  datatype PayoutStatus = Pending | PayoutProcessing | Completed | Failed

  datatype PayoutRow = PayoutRow(
    id: int, payoutNumber: string, sellerId: int, amount: real, commissionRate: real,
    commissionAmount: real, netAmount: real, status: PayoutStatus)

  datatype PaymentMethodRow = PaymentMethodRow(
    id: int, sellerId: int, bankName: Val, accountType: Val, accountHolder: Val,
    accountNumber: Val, ifscCode: Val, isDefault: bool)

  datatype TaxRow = TaxRow(sellerId: int, panNumber: Val, gstNumber: Val, taxYear: Val, filingStatus: Val)

  // ---------------------------------------------------------------------
  // addProduct

  /** A created product as the reply reports it: its id and selling price. */
  datatype Created = Created(id: int, price: real)

  /** The 400 test: any of `product_name`, `cost_price`, `gst_rate` and
      `seller_id` falsy, so a numeric 0 counts as missing. */
  predicate MissingProductFields(body: Body)
  {
    !Truthy(Get(body, "product_name")) || !Truthy(Get(body, "cost_price"))
    || !Truthy(Get(body, "gst_rate")) || !Truthy(Get(body, "seller_id"))
  }

  /** `parseFloat(cost_price) * (1 + parseFloat(gst_rate) / 100)`; `None`
      when either is NaN. The price is the cost plus the GST share. */
  function SellingPrice(cost: Val, gst: Val): (price: Option<real>)
    ensures price.Some? <==> ParseFloat(cost).Some? && ParseFloat(gst).Some?
    ensures price.Some? ==> price.value - ParseFloat(cost).value == ParseFloat(cost).value * ParseFloat(gst).value / 100.0
    ensures price.Some? && ParseFloat(cost).value >= 0.0 && ParseFloat(gst).value >= 0.0 ==>
      price.value >= ParseFloat(cost).value
  {
    match (ParseFloat(cost), ParseFloat(gst))
    case (Some(c), Some(g)) => Some(c * (1.0 + g / 100.0))
    case _ => None
  }

  /** The inserted row's columns: the required fields as given, the
      optional ones or NULL, `quantity || 0`, the image and certification
      lists or empty lists. */
  function NewProductCols(body: Body, price: real): map<string, Val>
  {
    map[
      "seller_id" := Get(body, "seller_id"),
      "product_name" := Get(body, "product_name"),
      "category_id" := Or(Get(body, "category_id"), Null),
      "description" := Or(Get(body, "description"), Null),
      "cost_price" := Get(body, "cost_price"),
      "price" := Num(price),
      "gst_rate" := Get(body, "gst_rate"),
      "hsn_code" := Or(Get(body, "hsn_code"), Null),
      "sku" := Or(Get(body, "sku"), Null),
      "quantity" := Or(Get(body, "quantity"), Num(0.0)),
      "unit" := Or(Get(body, "unit"), Null),
      "image_urls" := Or(Get(body, "image_urls"), List([])),
      "certifications" := Or(Get(body, "certifications"), List([])),
      "manufacturing_date" := Or(Get(body, "manufacturing_date"), Null),
      "expiry_date" := Or(Get(body, "expiry_date"), Null)
    ]
  }

  // ---------------------------------------------------------------------
  // updateProduct

  /** One entry of the SET list: `column = ?` paired with its parameter, or
      `column = CURRENT_TIMESTAMP`, which takes none. */
  datatype Assignment = Set(column: string, value: Val) | Stamp(column: string)

  function FieldText(a: Assignment): string
  {
    match a
    case Set(k, _) => k + " = ?"
    case Stamp(k) => k + " = CURRENT_TIMESTAMP"
  }

  /** `updateFields`. */
  function Texts(a: seq<Assignment>): seq<string>
  {
    if a == [] then [] else [FieldText(a[0])] + Texts(a[1..])
  }

  lemma {:induction false} TextsAppend(a: seq<Assignment>, b: seq<Assignment>)
    ensures Texts(a + b) == Texts(a) + Texts(b)
  {
    if a == [] {
      assert a + b == b;
    } else {
      assert (a + b)[0] == a[0];
      assert (a + b)[1..] == a[1..] + b;
      TextsAppend(a[1..], b);
      calc {
        Texts(a + b);
        [FieldText(a[0])] + Texts(a[1..] + b);
        [FieldText(a[0])] + (Texts(a[1..]) + Texts(b));
        ([FieldText(a[0])] + Texts(a[1..])) + Texts(b);
      }
    }
  }

  /** The parameters the assignments take, in order. */
  function Params(a: seq<Assignment>): seq<Val>
  {
    if a == [] then [] else (if a[0].Set? then [a[0].value] else []) + Params(a[1..])
  }

  lemma {:induction false} ParamsAppend(a: seq<Assignment>, b: seq<Assignment>)
    ensures Params(a + b) == Params(a) + Params(b)
  {
    if a == [] {
      assert a + b == b;
    } else {
      var head := if a[0].Set? then [a[0].value] else [];
      assert (a + b)[0] == a[0];
      assert (a + b)[1..] == a[1..] + b;
      ParamsAppend(a[1..], b);
      calc {
        Params(a + b);
        head + Params(a[1..] + b);
        head + (Params(a[1..]) + Params(b));
        (head + Params(a[1..])) + Params(b);
      }
    }
  }

  /** The four keys the handler takes out of the body by name. */
  predicate Special(key: string)
  {
    key == "cost_price" || key == "gst_rate" || key == "quantity" || key == "status"
  }

  /** `Object.entries(otherFields)` turned into assignments, in order. */
  function OtherSets(body: Body): seq<Assignment>
  {
    if body == [] then []
    else (if Special(body[0].0) then [] else [Set(body[0].0, body[0].1)]) + OtherSets(body[1..])
  }

  lemma {:induction false} OtherSetsAppend(a: Body, b: Body)
    ensures OtherSets(a + b) == OtherSets(a) + OtherSets(b)
  {
    if a == [] {
      assert a + b == b;
    } else {
      assert (a + b)[1..] == a[1..] + b;
      OtherSetsAppend(a[1..], b);
    }
  }

  /** Every regular assignment names a key of the body that is not one of
      the four taken out. */
  lemma {:induction false} OtherSetsColumns(body: Body)
    ensures forall i :: 0 <= i < |OtherSets(body)| ==>
      OtherSets(body)[i].Set? && !Special(OtherSets(body)[i].column)
      && exists j :: 0 <= j < |body| && body[j].0 == OtherSets(body)[i].column
  {
    if body != [] {
      OtherSetsColumns(body[1..]);
      var head := if Special(body[0].0) then [] else [Set(body[0].0, body[0].1)];
      var r := OtherSets(body);
      assert r == head + OtherSets(body[1..]);
      forall i | 0 <= i < |r|
        ensures r[i].Set? && !Special(r[i].column) && exists j :: 0 <= j < |body| && body[j].0 == r[i].column
      {
        if i < |head| {
          assert body[0].0 == r[i].column;
        } else {
          var j :| 0 <= j < |body[1..]| && body[1..][j].0 == r[i].column;
          assert body[j + 1].0 == r[i].column;
        }
      }
    }
  }

  /** `cost_price * (1 + gst_rate / 100)`. */
  function PriceParam(cost: Val, gst: Val): Val
  {
    match (ToNumber(cost), ToNumber(gst))
    case (Some(c), Some(g)) => Num(c * (1.0 + g / 100.0))
    case _ => NaN
  }

  /** The assignment for one named field, only when it is not `undefined`. */
  function Optional(column: string, v: Val): seq<Assignment>
  {
    if v != Undefined then [Set(column, v)] else []
  }

  /** A `gst_rate` brings `price` with it. */
  function GstSets(cost: Val, gst: Val): seq<Assignment>
  {
    if gst != Undefined then [Set("gst_rate", gst), Set("price", PriceParam(cost, gst))] else []
  }

  /** The assignments for the four named fields, each only when it is not
      `undefined`. */
  function NamedSets(cost: Val, gst: Val, quantity: Val, status: Val): seq<Assignment>
  {
    Optional("cost_price", cost) + GstSets(cost, gst) + Optional("quantity", quantity) + Optional("status", status)
  }

  /** The whole SET list of an update. */
  function Assignments(body: Body): seq<Assignment>
  {
    OtherSets(body)
    + NamedSets(Get(body, "cost_price"), Get(body, "gst_rate"), Get(body, "quantity"), Get(body, "status"))
    + [Stamp("updatedAt")]
  }

  /** The SET list as the handler assembles it, one named field at a time. */
  lemma AssignmentsSplit(body: Body)
    ensures
      var cost, gst, quantity, status :=
        Get(body, "cost_price"), Get(body, "gst_rate"), Get(body, "quantity"), Get(body, "status");
      Assignments(body) == OtherSets(body) + (if cost != Undefined then [Set("cost_price", cost)] else [])
        + (if gst != Undefined then [Set("gst_rate", gst), Set("price", PriceParam(cost, gst))] else [])
        + (if quantity != Undefined then [Set("quantity", quantity)] else [])
        + (if status != Undefined then [Set("status", status)] else [])
        + [Stamp("updatedAt")]
  {
    var cost, gst, quantity, status :=
      Get(body, "cost_price"), Get(body, "gst_rate"), Get(body, "quantity"), Get(body, "status");
    var o := OtherSets(body);
    var c := if cost != Undefined then [Set("cost_price", cost)] else [];
    var g := if gst != Undefined then [Set("gst_rate", gst), Set("price", PriceParam(cost, gst))] else [];
    var q := if quantity != Undefined then [Set("quantity", quantity)] else [];
    var s := if status != Undefined then [Set("status", status)] else [];
    assert NamedSets(cost, gst, quantity, status) == c + g + q + s;
    assert o + (c + g) == o + c + g;
    assert o + (c + g + q) == o + (c + g) + q;
    assert o + (c + g + q + s) == o + (c + g + q) + s;
  }

  /** The statement text around the joined SET list, written as text
      pieces and the '?' placeholder. */
  function UpdateQuery(joined: string): string
  {
    "UPDATE products SET " + joined + " WHERE id = " + "?"
  }

  /** The loop over `Object.entries(otherFields)`: one `key = ?` entry and
      one parameter for every key of the body other than the four taken out
      by name, in the body's order. */
  method OtherFieldTexts(body: Body) returns (updateFields: seq<string>, params: seq<Val>)
    ensures updateFields == Texts(OtherSets(body)) && params == Params(OtherSets(body))
  {
    updateFields, params := [], [];
    ghost var asg: seq<Assignment> := [];
    var k := 0;
    while k < |body|
      invariant 0 <= k <= |body|
      invariant asg == OtherSets(body[..k])
      invariant updateFields == Texts(asg) && params == Params(asg)
    {
      var key, value := body[k].0, body[k].1;
      OtherSetsAppend(body[..k], [body[k]]);
      assert body[..k + 1] == body[..k] + [body[k]];
      if !Special(key) {
        SetStep(asg, key, value);
        updateFields := updateFields + [key + " = ?"];
        params := params + [value];
        asg := asg + [Set(key, value)];
      }
      k := k + 1;
    }
    assert body[..k] == body;
  }

  /** The statement and its parameter list as the handler builds them: the
      field list and the parameters are pushed in step, regular fields
      first, then the four named ones, then the timestamp, and finally the
      product id for the WHERE clause. */
  method BuildUpdate(body: Body, productId: int) returns (query: string, params: seq<Val>)
    ensures query == UpdateQuery(Text.Join(", ", Texts(Assignments(body))))
    ensures params == Params(Assignments(body)) + [Num(productId as real)]
  {
    var cost, gst, quantity, status :=
      Get(body, "cost_price"), Get(body, "gst_rate"), Get(body, "quantity"), Get(body, "status");
    var updateFields;
    updateFields, params := OtherFieldTexts(body);
    updateFields, params := PushNamedFields(updateFields, params, cost, gst, quantity, status);
    updateFields := updateFields + ["updatedAt" + " = CURRENT_TIMESTAMP"];
    AssignmentsParts(body);
    params := params + [Num(productId as real)];
    query := UpdateQuery(Text.Join(", ", updateFields));
  }

  /** The four `if (x !== undefined)` blocks, in the handler's order. */
  method PushNamedFields(fields: seq<string>, ps: seq<Val>, cost: Val, gst: Val, quantity: Val, status: Val)
    returns (fields': seq<string>, ps': seq<Val>)
    ensures fields' == fields + Texts(NamedSets(cost, gst, quantity, status))
    ensures ps' == ps + Params(NamedSets(cost, gst, quantity, status))
  {
    fields', ps' := PushIfDefined(fields, ps, "cost_price", cost);
    fields', ps' := PushGst(fields', ps', cost, gst);
    fields', ps' := PushIfDefined(fields', ps', "quantity", quantity);
    fields', ps' := PushIfDefined(fields', ps', "status", status);
    NamedParts(fields, ps, Optional("cost_price", cost), GstSets(cost, gst),
      Optional("quantity", quantity), Optional("status", status));
  }

  /** `if (x !== undefined) { updateFields.push("<column> = ?"); params.push(x); }` */
  method PushIfDefined(fields: seq<string>, ps: seq<Val>, column: string, v: Val)
    returns (fields': seq<string>, ps': seq<Val>)
    ensures fields' == fields + Texts(Optional(column, v)) && ps' == ps + Params(Optional(column, v))
    ensures v != Undefined ==> fields' == fields + [column + " = ?"] && ps' == ps + [v]
    ensures v == Undefined ==> fields' == fields && ps' == ps
  {
    if v != Undefined {
      fields', ps' := fields + [column + " = ?"], ps + [v];
      SetStep([], column, v);
      assert [] + [Set(column, v)] == [Set(column, v)];
    } else {
      fields', ps' := fields, ps;
      assert fields + [] == fields && ps + [] == ps;
    }
  }

  /** The `gst_rate` block: `gst_rate = ?` and `price = ?`, with the rate and
      `cost_price * (1 + gst_rate / 100)`. */
  method PushGst(fields: seq<string>, ps: seq<Val>, cost: Val, gst: Val)
    returns (fields': seq<string>, ps': seq<Val>)
    ensures fields' == fields + Texts(GstSets(cost, gst)) && ps' == ps + Params(GstSets(cost, gst))
  {
    if gst != Undefined {
      fields', ps' := fields + ["gst_rate" + " = ?"] + ["price" + " = ?"], ps + [gst] + [PriceParam(cost, gst)];
      GstStep(cost, gst);
    } else {
      fields', ps' := fields, ps;
      assert fields + [] == fields && ps + [] == ps;
    }
  }

  lemma GstStep(cost: Val, gst: Val)
    requires gst != Undefined
    ensures Texts(GstSets(cost, gst)) == ["gst_rate" + " = ?"] + ["price" + " = ?"]
    ensures Params(GstSets(cost, gst)) == [gst] + [PriceParam(cost, gst)]
  {
    var g := GstSets(cost, gst);
    var rest := g[1..];
    assert rest == [Set("price", PriceParam(cost, gst))] && rest[1..] == [];
    assert Texts(rest) == ["price" + " = ?"] + Texts(rest[1..]);
    assert Params(rest) == [PriceParam(cost, gst)] + Params(rest[1..]);
    assert Texts(g) == ["gst_rate" + " = ?"] + Texts(rest);
    assert Params(g) == [gst] + Params(rest);
  }

  /** Appending the four blocks one after another appends their join. */
  lemma NamedParts(fields: seq<string>, ps: seq<Val>, c: seq<Assignment>, g: seq<Assignment>, q: seq<Assignment>, t: seq<Assignment>)
    ensures fields + Texts(c) + Texts(g) + Texts(q) + Texts(t) == fields + Texts(c + g + q + t)
    ensures ps + Params(c) + Params(g) + Params(q) + Params(t) == ps + Params(c + g + q + t)
  {
    TextsAppend(c, g);
    TextsAppend(c + g, q);
    TextsAppend(c + g + q, t);
    ParamsAppend(c, g);
    ParamsAppend(c + g, q);
    ParamsAppend(c + g + q, t);
    Regroup(fields, Texts(c), Texts(g), Texts(q), Texts(t));
    Regroup(ps, Params(c), Params(g), Params(q), Params(t));
  }

  lemma Regroup<T>(a: seq<T>, b: seq<T>, c: seq<T>, d: seq<T>, e: seq<T>)
    ensures a + b + c + d + e == a + (b + c + d + e)
  {
  }

  /** The statement's SET list in its three parts: regular fields, named
      fields, timestamp. */
  lemma AssignmentsParts(body: Body)
    ensures var named := NamedSets(Get(body, "cost_price"), Get(body, "gst_rate"), Get(body, "quantity"), Get(body, "status"));
      Texts(Assignments(body)) == Texts(OtherSets(body)) + Texts(named) + ["updatedAt" + " = CURRENT_TIMESTAMP"]
      && Params(Assignments(body)) == Params(OtherSets(body)) + Params(named)
  {
    var named := NamedSets(Get(body, "cost_price"), Get(body, "gst_rate"), Get(body, "quantity"), Get(body, "status"));
    var others := OtherSets(body);
    TextsAppend(others + named, [Stamp("updatedAt")]);
    TextsAppend(others, named);
    ParamsAppend(others + named, [Stamp("updatedAt")]);
    ParamsAppend(others, named);
    assert Texts([Stamp("updatedAt")]) == ["updatedAt" + " = CURRENT_TIMESTAMP"];
    assert Params([Stamp("updatedAt")]) == [];
  }

  /** Pushing one `column = ?` entry and its parameter. */
  lemma SetStep(a: seq<Assignment>, k: string, v: Val)
    ensures Texts(a + [Set(k, v)]) == Texts(a) + [k + " = ?"]
    ensures Params(a + [Set(k, v)]) == Params(a) + [v]
  {
    ParamsAppend(a, [Set(k, v)]);
    TextsAppend(a, [Set(k, v)]);
    assert [Set(k, v)][1..] == [];
  }

  /** A SET entry's text holds one '?' exactly when it takes a parameter. */
  lemma FieldTextCount(x: Assignment)
    requires Text.Count('?', x.column) == 0
    ensures Text.Count('?', FieldText(x)) == if x.Set? then 1 else 0
  {
    var k := x.column;
    match x
    case Set(_, _) =>
      Text.NoCount('?', " = ");
      Text.CountAppend('?', k, " = ");
      Text.CountAppend('?', k + " = ", "?");
      assert k + " = ?" == k + " = " + "?";
    case Stamp(_) =>
      Text.NoCount('?', " = CURRENT_TIMESTAMP");
      Text.CountAppend('?', k, " = CURRENT_TIMESTAMP");
  }

  lemma {:induction false} PlaceholdersOfTexts(a: seq<Assignment>)
    requires forall i :: 0 <= i < |a| ==> NoMark(a[i].column)
    ensures Text.CountAll('?', Texts(a)) == |Params(a)|
  {
    if a != [] {
      PlaceholdersOfTexts(a[1..]);
      assert Texts(a)[1..] == Texts(a[1..]);
      Text.NoCount('?', a[0].column);
      FieldTextCount(a[0]);
    }
  }

  /** No column of `a` holds a '?'. */
  predicate ColumnsUnmarked(a: seq<Assignment>)
  {
    forall i :: 0 <= i < |a| ==> NoMark(a[i].column)
  }

  lemma ColumnsAppend(a: seq<Assignment>, b: seq<Assignment>)
    requires ColumnsUnmarked(a) && ColumnsUnmarked(b)
    ensures ColumnsUnmarked(a + b)
  {
    forall i | 0 <= i < |a + b| ensures NoMark((a + b)[i].column) {
      if i >= |a| {
        assert (a + b)[i] == b[i - |a|];
      }
    }
  }

  lemma NamedColumnNames()
    ensures NoMark("cost_price") && NoMark("gst_rate") && NoMark("price")
    ensures NoMark("quantity") && NoMark("status") && NoMark("updatedAt")
  {
  }

  lemma OptionalUnmarked(column: string, v: Val)
    requires NoMark(column)
    ensures ColumnsUnmarked(Optional(column, v))
  {
  }

  lemma GstUnmarked(cost: Val, gst: Val)
    requires NoMark("gst_rate") && NoMark("price")
    ensures ColumnsUnmarked(GstSets(cost, gst))
  {
  }

  lemma StampUnmarked(column: string)
    requires NoMark(column)
    ensures ColumnsUnmarked([Stamp(column)])
  {
  }

  /** The columns the handler names itself hold no '?'. */
  lemma NamedColumns(cost: Val, gst: Val, quantity: Val, status: Val)
    ensures ColumnsUnmarked(NamedSets(cost, gst, quantity, status) + [Stamp("updatedAt")])
  {
    var c := Optional("cost_price", cost);
    var g := GstSets(cost, gst);
    var q := Optional("quantity", quantity);
    var s := Optional("status", status);
    NamedColumnNames();
    OptionalUnmarked("cost_price", cost);
    GstUnmarked(cost, gst);
    OptionalUnmarked("quantity", quantity);
    OptionalUnmarked("status", status);
    StampUnmarked("updatedAt");
    ColumnsAppend(c, g);
    ColumnsAppend(c + g, q);
    ColumnsAppend(c + g + q, s);
    ColumnsAppend(c + g + q + s, [Stamp("updatedAt")]);
  }

  /** The joined SET list holds one '?' per parameter. */
  lemma SetListCount(body: Body)
    requires forall j :: 0 <= j < |body| ==> NoMark(body[j].0)
    ensures Text.Count('?', Text.Join(", ", Texts(Assignments(body)))) == |Params(Assignments(body))|
  {
    var a := Assignments(body);
    var others := OtherSets(body);
    var named := NamedSets(Get(body, "cost_price"), Get(body, "gst_rate"), Get(body, "quantity"), Get(body, "status")) + [Stamp("updatedAt")];
    assert a == others + named;
    OtherColumnsUnmarked(body);
    NamedColumns(Get(body, "cost_price"), Get(body, "gst_rate"), Get(body, "quantity"), Get(body, "status"));
    ColumnsAppend(others, named);
    PlaceholdersOfTexts(a);
    SeparatorUnmarked(", ");
    Text.JoinCountFree('?', ", ", Texts(a));
  }

  lemma SeparatorUnmarked(sep: string)
    requires NoMark(sep)
    ensures Text.Count('?', sep) == 0
  {
    Text.NoCount('?', sep);
  }

  /** The regular fields' columns are keys of the body. */
  lemma {:induction false} OtherColumnsUnmarked(body: Body)
    requires forall j :: 0 <= j < |body| ==> NoMark(body[j].0)
    ensures ColumnsUnmarked(OtherSets(body))
  {
    if body != [] {
      var rest := body[1..];
      assert forall j :: 0 <= j < |rest| ==> rest[j] == body[j + 1];
      OtherColumnsUnmarked(rest);
      var head := if Special(body[0].0) then [] else [Set(body[0].0, body[0].1)];
      assert OtherSets(body) == head + OtherSets(rest);
      ColumnsAppend(head, OtherSets(rest));
    }
  }

  /** `s` holds no '?' placeholder. */
  predicate NoMark(s: string)
  {
    forall i :: 0 <= i < |s| ==> s[i] != '?'
  }

  /** A text between two that hold no '?', followed by a '?', holds one
      more '?' than the text. */
  lemma Framed(a: string, m: string, b: string)
    requires NoMark(a) && NoMark(b)
    ensures Text.Count('?', a + m + b + "?") == Text.Count('?', m) + 1
  {
    Text.NoCount('?', a);
    Text.NoCount('?', b);
    Text.CountAppend('?', a, m);
    Text.CountAppend('?', a + m, b);
    Text.CountAppend('?', a + m + b, "?");
  }

  /** The statement text around the SET list adds one '?', for the id. */
  lemma QueryCount(joined: string)
    ensures Text.Count('?', UpdateQuery(joined)) == Text.Count('?', joined) + 1
  {
    Framed("UPDATE products SET ", joined, " WHERE id = ");
  }

  /** The statement has exactly as many '?' placeholders as the handler
      passes parameters, provided no body key itself holds a '?' (keys are
      pasted into the statement text unescaped). */
  lemma PlaceholdersMatch(body: Body)
    requires forall j :: 0 <= j < |body| ==> NoMark(body[j].0)
    ensures Text.Count('?', UpdateQuery(Text.Join(", ", Texts(Assignments(body))))) == |Params(Assignments(body))| + 1
  {
    SetListCount(body);
    QueryCount(Text.Join(", ", Texts(Assignments(body))));
  }

  /** One assignment's effect on a row's columns. */
  function Step(cols: map<string, Val>, a: Assignment, now: int): map<string, Val>
  {
    match a
    case Set(k, v) => cols[k := v]
    case Stamp(k) => cols[k := Time(now)]
  }

  /** The SET list applied left to right, as MySQL applies a single-table
      UPDATE: a later assignment to a column overrides an earlier one. */
  function Apply(cols: map<string, Val>, a: seq<Assignment>, now: int): map<string, Val>
    decreases |a|
  {
    if a == [] then cols else Apply(Step(cols, a[0], now), a[1..], now)
  }

  lemma {:induction false} ApplyAppend(cols: map<string, Val>, a: seq<Assignment>, b: seq<Assignment>, now: int)
    ensures Apply(cols, a + b, now) == Apply(Apply(cols, a, now), b, now)
    decreases |a|
  {
    if a == [] {
      assert a + b == b;
    } else {
      assert (a + b)[1..] == a[1..] + b;
      ApplyAppend(Step(cols, a[0], now), a[1..], b, now);
    }
  }

  /** A column no assignment names keeps its value, or stays unset. */
  lemma {:induction false} ApplyUntouched(cols: map<string, Val>, a: seq<Assignment>, now: int, k: string)
    requires forall i :: 0 <= i < |a| ==> a[i].column != k
    ensures (k in Apply(cols, a, now)) == (k in cols)
    ensures k in cols ==> Apply(cols, a, now)[k] == cols[k]
    decreases |a|
  {
    if a != [] {
      ApplyUntouched(Step(cols, a[0], now), a[1..], now, k);
    }
  }

  /** Every update stamps `updatedAt`, even when the body names it too. */
  lemma UpdatedAtStamped(cols: map<string, Val>, body: Body, now: int)
    ensures "updatedAt" in Apply(cols, Assignments(body), now)
    ensures Apply(cols, Assignments(body), now)["updatedAt"] == Time(now)
  {
    var front := OtherSets(body)
      + NamedSets(Get(body, "cost_price"), Get(body, "gst_rate"), Get(body, "quantity"), Get(body, "status"));
    ApplyAppend(cols, front, [Stamp("updatedAt")], now);
  }

  /** With no `gst_rate` (and no `price` key) the price is left as it was,
      whatever `cost_price` says. */
  lemma PriceKeptWithoutGst(cols: map<string, Val>, body: Body, now: int)
    requires Get(body, "gst_rate") == Undefined
    requires forall j :: 0 <= j < |body| ==> body[j].0 != "price"
    ensures ("price" in Apply(cols, Assignments(body), now)) == ("price" in cols)
    ensures "price" in cols ==> Apply(cols, Assignments(body), now)["price"] == cols["price"]
  {
    var a := Assignments(body);
    OtherSetsColumns(body);
    forall i | 0 <= i < |a| ensures a[i].column != "price" {
      if i < |OtherSets(body)| {
        assert a[i] == OtherSets(body)[i];
      }
    }
    ApplyUntouched(cols, a, now, "price");
  }

  /** With a `gst_rate` the price becomes `cost_price * (1 + gst_rate/100)`,
      computed from the `cost_price` of the same request: whatever a body
      key named `price` said is overridden. */
  lemma PriceFromGst(cols: map<string, Val>, body: Body, now: int)
    requires Get(body, "gst_rate") != Undefined
    ensures "price" in Apply(cols, Assignments(body), now)
    ensures Apply(cols, Assignments(body), now)["price"] == PriceParam(Get(body, "cost_price"), Get(body, "gst_rate"))
  {
    var cost, gst, quantity, status :=
      Get(body, "cost_price"), Get(body, "gst_rate"), Get(body, "quantity"), Get(body, "status");
    var others, costPart, quantityPart, statusPart, stamp :=
      OtherSets(body), Optional("cost_price", cost), Optional("quantity", quantity), Optional("status", status), [Stamp("updatedAt")];
    var gstPart := GstSets(cost, gst);
    assert gstPart == [Set("gst_rate", gst), Set("price", PriceParam(cost, gst))];
    var front := others + costPart + gstPart;
    var back := quantityPart + statusPart + stamp;
    SplitFront(others, costPart, gstPart, quantityPart, statusPart, stamp);
    ApplyAppend(cols, front, back, now);
    var before := others + costPart + [Set("gst_rate", gst)];
    assert front == before + [Set("price", PriceParam(cost, gst))];
    ApplyAppend(cols, before, [Set("price", PriceParam(cost, gst))], now);
    ApplyUntouched(Apply(cols, front, now), back, now, "price");
  }

  lemma SplitFront<T>(o: seq<T>, c: seq<T>, g: seq<T>, q: seq<T>, s: seq<T>, d: seq<T>)
    ensures o + (c + g + q + s) + d == (o + c + g) + (q + s + d)
  {
  }

  /** The rows after `UPDATE products SET ... WHERE id = ?`. */
  function UpdateRows(rows: seq<ProductRow>, id: int, a: seq<Assignment>, now: int): (r: seq<ProductRow>)
    ensures |r| == |rows|
    ensures forall i :: 0 <= i < |rows| ==> r[i].id == rows[i].id
    ensures forall i :: 0 <= i < |rows| && rows[i].id != id ==> r[i] == rows[i]
    ensures forall i :: 0 <= i < |rows| && rows[i].id == id ==> r[i].cols == Apply(rows[i].cols, a, now)
  {
    seq(|rows|, i requires 0 <= i < |rows| =>
      if rows[i].id == id then ProductRow(id, Apply(rows[i].cols, a, now)) else rows[i])
  }

  // ---------------------------------------------------------------------
  // getSellerProducts

  /** `sortMap[sort] || "createdAt DESC"`, and the same clause without a
      sort. */
  function OrderClause(sort: string): (clause: string)
    ensures clause in {"product_name ASC", "price ASC", "price DESC", "sales DESC", "quantity DESC", "createdAt DESC"}
    ensures clause == "createdAt DESC" <==> sort !in {"name", "price_asc", "price_desc", "sales", "quantity"}
  {
    if sort == "name" then "product_name ASC"
    else if sort == "price_asc" then "price ASC"
    else if sort == "price_desc" then "price DESC"
    else if sort == "sales" then "sales DESC"
    else if sort == "quantity" then "quantity DESC"
    else "createdAt DESC"
  }

  /** The statement's fixed clauses, each written as its text pieces and
      '?' placeholders. */
  const SelectClause := "SELECT * FROM products WHERE seller_id = " + "?"
  const SearchClause := " AND (product_name LIKE " + "?" + " OR category_id LIKE " + "?" + ")"
  const StatusClause := " AND status = " + "?"

  /** A text that holds no '?' followed by one. */
  lemma OneMark(a: string)
    requires NoMark(a)
    ensures Text.Count('?', a + "?") == 1
  {
    Text.NoCount('?', a);
    Text.CountAppend('?', a, "?");
  }

  /** Three texts that hold no '?' with a '?' between each two. */
  lemma TwoMarks(a: string, b: string, c: string)
    requires NoMark(a) && NoMark(b) && NoMark(c)
    ensures Text.Count('?', a + "?" + b + "?" + c) == 2
  {
    Text.NoCount('?', a);
    Text.NoCount('?', b);
    Text.NoCount('?', c);
    Text.CountAppend('?', a, "?");
    Text.CountAppend('?', a + "?", b);
    Text.CountAppend('?', a + "?" + b, "?");
    Text.CountAppend('?', a + "?" + b + "?", c);
  }

  /** The fixed clauses' placeholders: one for the seller, two for the
      search, one for the status, none in the ordering. */
  lemma SelectClauseCount()
    ensures Text.Count('?', SelectClause) == 1
  {
    OneMark("SELECT * FROM products WHERE seller_id = ");
  }

  lemma SearchClauseCount()
    ensures Text.Count('?', SearchClause) == 2
  {
    TwoMarks(" AND (product_name LIKE ", " OR category_id LIKE ", ")");
  }

  lemma StatusClauseCount()
    ensures Text.Count('?', StatusClause) == 1
  {
    OneMark(" AND status = ");
  }

  lemma OrderByCount(sort: string)
    ensures Text.Count('?', " ORDER BY " + OrderClause(sort)) == 0
  {
    OrderClauseNoMark(sort);
    Unmarked(" ORDER BY ", OrderClause(sort));
  }

  lemma OrderClauseNoMark(sort: string)
    ensures NoMark(OrderClause(sort))
  {
    OrderClauseNames();
  }

  lemma OrderClauseNames()
    ensures NoMark("product_name ASC") && NoMark("price ASC") && NoMark("price DESC")
    ensures NoMark("sales DESC") && NoMark("quantity DESC") && NoMark("createdAt DESC")
    ensures NoMark(" ORDER BY ")
  {
  }

  lemma Unmarked(a: string, b: string)
    requires NoMark(a) && NoMark(b)
    ensures Text.Count('?', a + b) == 0
  {
    Text.NoCount('?', a + b);
  }

  /** The product listing's statement and parameters, built clause by
      clause: the seller, then a search over name and category, then a
      status, then the ordering. The query strings are read as strings, an
      absent one being the falsy ''. */
  method GetSellerProducts(sellerId: int, search: string, status: string, sort: string)
    returns (query: string, params: seq<Val>)
    ensures Text.Count('?', query) == |params|
    ensures |params| >= 1 && params[0] == Num(sellerId as real)
    ensures params[1..] == (if search != "" then [Str("%" + search + "%"), Str("%" + search + "%")] else [])
      + (if status != "" then [Str(status)] else [])
    ensures |OrderClause(sort)| <= |query| && query[|query| - |OrderClause(sort)|..] == OrderClause(sort)
  {
    SelectClauseCount();
    query := SelectClause;
    params := [Num(sellerId as real)];
    SearchClauseCount();
    query, params := AddClause(query, params, search != "", SearchClause, [Str("%" + search + "%"), Str("%" + search + "%")]);
    StatusClauseCount();
    query, params := AddClause(query, params, status != "", StatusClause, [Str(status)]);
    DropHead(Num(sellerId as real), if search != "" then [Str("%" + search + "%"), Str("%" + search + "%")] else [],
      if status != "" then [Str(status)] else []);
    var order := " ORDER BY " + OrderClause(sort);
    OrderByCount(sort);
    Counted(query, params, order, []);
    EndsWithClause(query, order, OrderClause(sort));
    query := query + order;
    assert params + [] == params;
  }

  /** `if (cond) { query += clause; params.push(...extra); }`: the clause and
      its parameters are appended together or not at all, keeping one '?'
      per parameter. */
  method AddClause(query: string, params: seq<Val>, cond: bool, clause: string, extra: seq<Val>)
    returns (query': string, params': seq<Val>)
    requires Text.Count('?', query) == |params| && Text.Count('?', clause) == |extra|
    ensures query' == query + (if cond then clause else "")
    ensures params' == params + (if cond then extra else [])
    ensures Text.Count('?', query') == |params'|
  {
    if cond {
      Counted(query, params, clause, extra);
      query', params' := query + clause, params + extra;
    } else {
      query', params' := query, params;
      assert query + "" == query && params + [] == params;
    }
  }

  lemma DropHead(x: Val, a: seq<Val>, b: seq<Val>)
    ensures ([x] + a + b)[0] == x && ([x] + a + b)[1..] == a + b
  {
  }

  /** Appending a clause and its parameters keeps one '?' per parameter. */
  lemma Counted(q: string, p: seq<Val>, clause: string, extra: seq<Val>)
    requires Text.Count('?', q) == |p| && Text.Count('?', clause) == |extra|
    ensures Text.Count('?', q + clause) == |p + extra|
  {
    Text.CountAppend('?', q, clause);
  }

  /** A text followed by the ordering ends with the ordering's clause. */
  lemma EndsWithClause(q: string, order: string, c: string)
    requires order == " ORDER BY " + c
    ensures |c| <= |q + order| && (q + order)[|q + order| - |c|..] == c
  {
    assert (q + order)[|q + order| - |c|..] == order[|order| - |c|..];
  }

  // ---------------------------------------------------------------------
  // updateOrderStatus

  function StatusText(s: ServerStatus): string
  {
    match s
    case Processing => "processing"
    case InTransit => "in_transit"
    case Delivered => "delivered"
    case Cancelled => "cancelled"
  }

  /** `validStatuses.includes(status)`: only the four status strings pass,
      and each reads back as the status it names. */
  function ParseStatus(v: Val): (r: Option<ServerStatus>)
    ensures r.Some? <==> v.Str? && v.s in {"processing", "in_transit", "delivered", "cancelled"}
    ensures r.Some? ==> v == Str(StatusText(r.value))
  {
    if v == Str("processing") then Some(Processing)
    else if v == Str("in_transit") then Some(InTransit)
    else if v == Str("delivered") then Some(Delivered)
    else if v == Str("cancelled") then Some(Cancelled)
    else None
  }

  /** The status text names its status and nothing else. */
  lemma StatusTextRoundTrip(s: ServerStatus)
    ensures ParseStatus(Str(StatusText(s))) == Some(s)
  {
  }

  /** `updateData`: the new status, `shipped_date` stamped for 'in_transit'
      and `delivery_date` for 'delivered'; nothing else changes, whatever the
      order's current status. */
  function StampOrder(o: OrderRow, s: ServerStatus, now: int): (r: OrderRow)
    ensures r.status == s
    ensures r.shippedDate == (if s == InTransit then Some(now) else o.shippedDate)
    ensures r.deliveryDate == (if s == Delivered then Some(now) else o.deliveryDate)
    ensures r.id == o.id && r.sellerId == o.sellerId && r.totalAmount == o.totalAmount
  {
    match s
    case InTransit => o.(status := s, shippedDate := Some(now))
    case Delivered => o.(status := s, deliveryDate := Some(now))
    case _ => o.(status := s)
  }

  function UpdateOrderRows(orders: seq<OrderRow>, id: int, s: ServerStatus, now: int): (r: seq<OrderRow>)
    ensures |r| == |orders|
    ensures forall i :: 0 <= i < |orders| ==>
      r[i] == if orders[i].id == id then StampOrder(orders[i], s, now) else orders[i]
  {
    seq(|orders|, i requires 0 <= i < |orders| =>
      if orders[i].id == id then StampOrder(orders[i], s, now) else orders[i])
  }

  // ---------------------------------------------------------------------
  // requestPayout and getPayoutAnalytics

  const CommissionRate: real := 10.0

  /** `!amount || amount <= 0`. */
  predicate InvalidAmount(amount: Val)
  {
    !Truthy(amount) || (ToNumber(amount).Some? && ToNumber(amount).value <= 0.0)
  }

  /** The commission at 10 % and the net amount paid out: together they
      make up the amount, and a positive amount leaves a positive net. */
  function Split(amount: real): (r: (real, real))
    ensures r.0 + r.1 == amount
    ensures r.0 * 10.0 == amount
    ensures amount > 0.0 ==> 0.0 < r.1 < amount
  {
    var commission := amount * CommissionRate / 100.0;
    (commission, amount - commission)
  }

  /** `SUM(total_amount)` over the seller's delivered orders. */
  function DeliveredRevenue(orders: seq<OrderRow>, seller: int): real
  {
    if orders == [] then 0.0
    else
      var here := if orders[0].sellerId == seller && orders[0].status == Delivered then orders[0].totalAmount else 0.0;
      here + DeliveredRevenue(orders[1..], seller)
  }

  /** `SUM(total_amount)` and `COUNT` over all the seller's orders. */
  function OrderTotal(orders: seq<OrderRow>, seller: int): real
  {
    if orders == [] then 0.0
    else (if orders[0].sellerId == seller then orders[0].totalAmount else 0.0) + OrderTotal(orders[1..], seller)
  }

  function OrderCount(orders: seq<OrderRow>, seller: int): nat
  {
    if orders == [] then 0
    else (if orders[0].sellerId == seller then 1 else 0) + OrderCount(orders[1..], seller)
  }

  /** `SUM(amount)` over the seller's pending payouts. */
  function PendingTotal(payouts: seq<PayoutRow>, seller: int): real
  {
    if payouts == [] then 0.0
    else
      var here := if payouts[0].sellerId == seller && payouts[0].status == Pending then payouts[0].amount else 0.0;
      here + PendingTotal(payouts[1..], seller)
  }

  /** `SUM(net_amount)` over the seller's completed payouts. */
  function CompletedNet(payouts: seq<PayoutRow>, seller: int): real
  {
    if payouts == [] then 0.0
    else
      var here := if payouts[0].sellerId == seller && payouts[0].status == Completed then payouts[0].netAmount else 0.0;
      here + CompletedNet(payouts[1..], seller)
  }

  /** The figures `getPayoutAnalytics` reports (formatting left aside). */
  datatype Analytics = Analytics(
    totalRevenue: real, pendingPayout: real, commissionRate: string, totalCommission: real,
    averageOrderValue: real, totalPayouts: real)

  /** Each `SUM` or `AVG` that finds no row is NULL and reported as 0. The
      commission is 10 % of the delivered revenue, and the average is the
      mean amount of all the seller's orders, whatever their status. */
  function ComputeAnalytics(orders: seq<OrderRow>, payouts: seq<PayoutRow>, seller: int): (r: Analytics)
    ensures r.totalRevenue == DeliveredRevenue(orders, seller)
    ensures r.totalCommission * 100.0 == r.totalRevenue * CommissionRate
    ensures r.commissionRate == "10%"
    ensures OrderCount(orders, seller) > 0 ==>
      r.averageOrderValue * OrderCount(orders, seller) as real == OrderTotal(orders, seller)
    ensures OrderCount(orders, seller) == 0 ==> r.averageOrderValue == 0.0
    ensures r.pendingPayout == PendingTotal(payouts, seller) && r.totalPayouts == CompletedNet(payouts, seller)
  {
    var revenue := DeliveredRevenue(orders, seller);
    var count := OrderCount(orders, seller);
    Analytics(
      revenue, PendingTotal(payouts, seller), "10%", revenue * CommissionRate / 100.0,
      if count == 0 then 0.0 else OrderTotal(orders, seller) / count as real,
      CompletedNet(payouts, seller))
  }

  /** With no negative order amount, the delivered revenue is at most the
      amount of all the seller's orders, and the commission at most a tenth
      of that. */
  lemma {:induction false} RevenueWithinOrders(orders: seq<OrderRow>, seller: int)
    requires forall i :: 0 <= i < |orders| ==> orders[i].totalAmount >= 0.0
    ensures 0.0 <= DeliveredRevenue(orders, seller) <= OrderTotal(orders, seller)
  {
    if orders != [] {
      RevenueWithinOrders(orders[1..], seller);
    }
  }

  /** A new payout adds its amount to its seller's pending total while it is
      pending, and its net to the paid-out total only once completed. */
  lemma {:induction false} PayoutAppend(payouts: seq<PayoutRow>, p: PayoutRow, seller: int)
    ensures PendingTotal(payouts + [p], seller)
      == PendingTotal(payouts, seller) + (if p.sellerId == seller && p.status == Pending then p.amount else 0.0)
    ensures CompletedNet(payouts + [p], seller)
      == CompletedNet(payouts, seller) + (if p.sellerId == seller && p.status == Completed then p.netAmount else 0.0)
  {
    if payouts != [] {
      assert (payouts + [p])[1..] == payouts[1..] + [p];
      PayoutAppend(payouts[1..], p, seller);
    } else {
      assert payouts + [p] == [p];
    }
  }

  /** The total amount of the seller's orders with that id, and of those
      among them that are delivered. */
  function IdAmount(orders: seq<OrderRow>, seller: int, id: int, deliveredOnly: bool): real
  {
    if orders == [] then 0.0
    else
      var o := orders[0];
      var here := if o.sellerId == seller && o.id == id && (!deliveredOnly || o.status == Delivered)
        then o.totalAmount else 0.0;
      here + IdAmount(orders[1..], seller, id, deliveredOnly)
  }

  /** A status write changes a seller's delivered revenue only through the
      orders of that id: their amounts leave the revenue if they were
      delivered, and all of them count once the new status is 'delivered'. */
  lemma {:induction false} RevenueAfterStatus(orders: seq<OrderRow>, id: int, s: ServerStatus, now: int, seller: int)
    ensures DeliveredRevenue(UpdateOrderRows(orders, id, s, now), seller)
      == DeliveredRevenue(orders, seller) - IdAmount(orders, seller, id, true)
         + (if s == Delivered then IdAmount(orders, seller, id, false) else 0.0)
  {
    if orders != [] {
      var r := UpdateOrderRows(orders, id, s, now);
      assert r[1..] == UpdateOrderRows(orders[1..], id, s, now);
      RevenueAfterStatus(orders[1..], id, s, now, seller);
    }
  }

  /** With no order of that id, a status write leaves every seller's
      delivered revenue as it was. */
  lemma {:induction false} RevenueUnaffected(orders: seq<OrderRow>, id: int, s: ServerStatus, now: int, seller: int)
    requires forall i :: 0 <= i < |orders| ==> orders[i].id != id
    ensures DeliveredRevenue(UpdateOrderRows(orders, id, s, now), seller) == DeliveredRevenue(orders, seller)
  {
    RevenueAfterStatus(orders, id, s, now, seller);
    AbsentIdAmount(orders, seller, id, true);
    AbsentIdAmount(orders, seller, id, false);
  }

  lemma {:induction false} AbsentIdAmount(orders: seq<OrderRow>, seller: int, id: int, deliveredOnly: bool)
    requires forall i :: 0 <= i < |orders| ==> orders[i].id != id
    ensures IdAmount(orders, seller, id, deliveredOnly) == 0.0
  {
    if orders != [] {
      AbsentIdAmount(orders[1..], seller, id, deliveredOnly);
    }
  }

  // ---------------------------------------------------------------------
  // addPaymentMethod and deletePaymentMethod

  /** The 400 test: any of the five account fields falsy. */
  predicate MissingAccountFields(body: Body)
  {
    !Truthy(Get(body, "bank_name")) || !Truthy(Get(body, "account_type")) || !Truthy(Get(body, "account_holder"))
    || !Truthy(Get(body, "account_number")) || !Truthy(Get(body, "ifsc_code"))
  }

  /** No seller has two default payment methods. */
  predicate OneDefaultPerSeller(ms: seq<PaymentMethodRow>)
  {
    forall i, j :: 0 <= i < j < |ms| && ms[i].isDefault && ms[j].isDefault ==> ms[i].sellerId != ms[j].sellerId
  }

  /** `UPDATE payment_methods SET is_default = FALSE WHERE seller_id = ?`. */
  function ClearDefaults(ms: seq<PaymentMethodRow>, seller: int): (r: seq<PaymentMethodRow>)
    ensures |r| == |ms|
    ensures forall i :: 0 <= i < |ms| ==>
      r[i] == if ms[i].sellerId == seller then ms[i].(isDefault := false) else ms[i]
  {
    seq(|ms|, i requires 0 <= i < |ms| =>
      if ms[i].sellerId == seller then ms[i].(isDefault := false) else ms[i])
  }

  /** The table after a successful add: a default method first clears the
      seller's other defaults, then the row is inserted at the end. */
  function WithMethod(ms: seq<PaymentMethodRow>, row: PaymentMethodRow): seq<PaymentMethodRow>
  {
    (if row.isDefault then ClearDefaults(ms, row.sellerId) else ms) + [row]
  }

  /** Adding keeps at most one default per seller; a method added as
      default is its seller's only default, and other sellers' methods are
      untouched. */
  lemma WithMethodDefaults(ms: seq<PaymentMethodRow>, row: PaymentMethodRow)
    requires OneDefaultPerSeller(ms)
    ensures OneDefaultPerSeller(WithMethod(ms, row))
    ensures row.isDefault ==> forall i :: 0 <= i < |ms| && ms[i].sellerId == row.sellerId ==>
      !WithMethod(ms, row)[i].isDefault
    ensures forall i :: 0 <= i < |ms| && ms[i].sellerId != row.sellerId ==> WithMethod(ms, row)[i] == ms[i]
  {
    var r := WithMethod(ms, row);
    assert forall i :: 0 <= i < |ms| ==> r[i].sellerId == ms[i].sellerId && (r[i].isDefault ==> ms[i].isDefault);
  }

  function OtherMethodId(id: int): PaymentMethodRow -> bool
  {
    (m: PaymentMethodRow) => m.id != id
  }

  /** `DELETE FROM payment_methods WHERE id = ?`. */
  function DeleteMethod(ms: seq<PaymentMethodRow>, id: int): seq<PaymentMethodRow>
  {
    Seqs.Filter(ms, OtherMethodId(id))
  }

  /** `x`, when default, shares its seller with no default method of `t`. */
  predicate NoClash(x: PaymentMethodRow, t: seq<PaymentMethodRow>)
  {
    x.isDefault ==> forall j :: 0 <= j < |t| && t[j].isDefault ==> t[j].sellerId != x.sellerId
  }

  lemma OneDefaultCons(x: PaymentMethodRow, t: seq<PaymentMethodRow>)
    ensures OneDefaultPerSeller([x] + t) <==> NoClash(x, t) && OneDefaultPerSeller(t)
  {
    var r := [x] + t;
    assert forall j :: 0 < j < |r| ==> r[j] == t[j - 1];
    if OneDefaultPerSeller(r) {
      forall i, j | 0 <= i < j < |t| && t[i].isDefault && t[j].isDefault ensures t[i].sellerId != t[j].sellerId {
        assert r[i + 1] == t[i] && r[j + 1] == t[j];
      }
      forall j | 0 <= j < |t| && t[j].isDefault && x.isDefault ensures t[j].sellerId != x.sellerId {
        assert r[0] == x && r[j + 1] == t[j];
      }
    }
    if NoClash(x, t) && OneDefaultPerSeller(t) {
      forall i, j | 0 <= i < j < |r| && r[i].isDefault && r[j].isDefault ensures r[i].sellerId != r[j].sellerId {
        if i == 0 {
          assert r[j] == t[j - 1];
        } else {
          assert r[i] == t[i - 1] && r[j] == t[j - 1];
        }
      }
    }
  }

  lemma NoClashFilter(x: PaymentMethodRow, t: seq<PaymentMethodRow>, p: PaymentMethodRow -> bool)
    requires NoClash(x, t)
    ensures NoClash(x, Seqs.Filter(t, p))
  {
    var r := Seqs.Filter(t, p);
    forall j | 0 <= j < |r| && r[j].isDefault && x.isDefault ensures r[j].sellerId != x.sellerId {
      assert r[j] in t;
    }
  }

  /** Deleting keeps at most one default per seller. Nothing promotes
      another method when the default one is deleted. */
  lemma {:induction false} DeleteKeepsOneDefault(ms: seq<PaymentMethodRow>, id: int)
    requires OneDefaultPerSeller(ms)
    ensures OneDefaultPerSeller(DeleteMethod(ms, id))
    ensures forall i :: 0 <= i < |DeleteMethod(ms, id)| ==> DeleteMethod(ms, id)[i].id != id
  {
    if ms != [] {
      var x, tail := ms[0], ms[1..];
      assert ms == [x] + tail;
      OneDefaultCons(x, tail);
      DeleteKeepsOneDefault(tail, id);
      NoClashFilter(x, tail, OtherMethodId(id));
      OneDefaultCons(x, DeleteMethod(tail, id));
      assert DeleteMethod(ms, id) == (if x.id != id then [x] else []) + DeleteMethod(tail, id);
    }
  }

  /** `'****' + account_number.slice(-4)`: the last four characters, or the
      whole number when it is shorter. */
  function Masked(accountNumber: string): (r: string)
    ensures |r| == 4 + (if |accountNumber| < 4 then |accountNumber| else 4)
    ensures r[..4] == "****"
    ensures Text.IsPrefix(r[4..], accountNumber) || |accountNumber| >= 4
    ensures |accountNumber| >= 4 ==> r[4..] == accountNumber[|accountNumber| - 4..]
  {
    "****" + (if |accountNumber| < 4 then accountNumber else accountNumber[|accountNumber| - 4..])
  }

  // ---------------------------------------------------------------------
  // updateTaxInfo

  /** The schema's UNIQUE `seller_id`: at most one row per seller. */
  predicate UniqueTaxSellers(rows: seq<TaxRow>)
  {
    forall i, j :: 0 <= i < j < |rows| ==> rows[i].sellerId != rows[j].sellerId
  }

  function SameTaxSeller(seller: int): TaxRow -> bool
  {
    (t: TaxRow) => t.sellerId == seller
  }

  predicate HasTaxRow(rows: seq<TaxRow>, seller: int)
  {
    exists i :: 0 <= i < |rows| && rows[i].sellerId == seller
  }

  /** The select-then-write upsert: the seller's rows are overwritten when
      there are any, otherwise the row is inserted. */
  function Upsert(rows: seq<TaxRow>, row: TaxRow): seq<TaxRow>
  {
    if HasTaxRow(rows, row.sellerId) then
      seq(|rows|, i requires 0 <= i < |rows| => if rows[i].sellerId == row.sellerId then row else rows[i])
    else rows + [row]
  }

  /** After the upsert exactly one row belongs to the seller and it holds
      the given fields; the other sellers' rows are as they were, in their
      places. */
  lemma UpsertExactlyOne(rows: seq<TaxRow>, row: TaxRow)
    requires UniqueTaxSellers(rows)
    ensures UniqueTaxSellers(Upsert(rows, row))
    ensures exists k :: (0 <= k < |Upsert(rows, row)| && Upsert(rows, row)[k] == row
      && forall i :: 0 <= i < |Upsert(rows, row)| && i != k ==> Upsert(rows, row)[i].sellerId != row.sellerId)
    ensures forall i :: 0 <= i < |rows| && rows[i].sellerId != row.sellerId ==> Upsert(rows, row)[i] == rows[i]
  {
    var r := Upsert(rows, row);
    if HasTaxRow(rows, row.sellerId) {
      var k :| 0 <= k < |rows| && rows[k].sellerId == row.sellerId;
      assert r[k] == row;
    } else {
      assert r[|rows|] == row;
    }
  }

  // ---------------------------------------------------------------------
  // The store

  /** The tables, with the next id each AUTO_INCREMENT column hands out. */
  class SellerStore {
    var products: seq<ProductRow>
    var nextProductId: int
    var orders: seq<OrderRow>
    var payouts: seq<PayoutRow>
    var nextPayoutId: int
    var paymentMethods: seq<PaymentMethodRow>
    var nextMethodId: int
    var taxInfo: seq<TaxRow>

    /** Every id handed out lies below the next one, no seller has two
        default payment methods, and no seller has two tax rows. */
    predicate Valid()
      reads this
    {
      (forall i :: 0 <= i < |products| ==> products[i].id < nextProductId)
      && (forall i :: 0 <= i < |payouts| ==> payouts[i].id < nextPayoutId)
      && (forall i :: 0 <= i < |paymentMethods| ==> paymentMethods[i].id < nextMethodId)
      && OneDefaultPerSeller(paymentMethods)
      && UniqueTaxSellers(taxInfo)
    }

    constructor ()
      ensures Valid()
      ensures products == [] && orders == [] && payouts == [] && paymentMethods == [] && taxInfo == []
    {
      products, orders, payouts, paymentMethods, taxInfo := [], [], [], [], [];
      nextProductId, nextPayoutId, nextMethodId := 1, 1, 1;
    }

    /** `addProduct`: a missing required field is a 400 and writes nothing;
        a price that is not a number makes the insert fail (500); otherwise
        the row is inserted under a fresh id with the price including GST,
        and the reply carries both. */
    method AddProduct(body: Body) returns (resp: Response, created: Option<Created>)
      requires Valid()
      modifies this
      ensures Valid()
      ensures MissingProductFields(body) ==> resp == Response(400, "Missing required fields")
      ensures (MissingProductFields(body) || SellingPrice(Get(body, "cost_price"), Get(body, "gst_rate")).None?) ==>
        products == old(products) && created == None && resp.code != 201
      ensures !MissingProductFields(body) && SellingPrice(Get(body, "cost_price"), Get(body, "gst_rate")).Some? ==>
        (var price := SellingPrice(Get(body, "cost_price"), Get(body, "gst_rate")).value;
         resp == Response(201, "Product added successfully")
         && created == Some(Created(old(nextProductId), price))
         && products == old(products) + [ProductRow(old(nextProductId), NewProductCols(body, price))]
         && (forall i :: 0 <= i < |old(products)| ==> old(products)[i].id != old(nextProductId)))
      ensures orders == old(orders) && payouts == old(payouts)
      ensures paymentMethods == old(paymentMethods) && taxInfo == old(taxInfo)
    {
      created := None;
      if MissingProductFields(body) {
        resp := Response(400, "Missing required fields");
        return;
      }
      var price := SellingPrice(Get(body, "cost_price"), Get(body, "gst_rate"));
      if price.None? {
        resp := Response(500, "Error adding product");
        return;
      }
      var id := nextProductId;
      products := products + [ProductRow(id, NewProductCols(body, price.value))];
      nextProductId := nextProductId + 1;
      created := Some(Created(id, price.value));
      resp := Response(201, "Product added successfully");
    }

    /** `updateProduct`: the statement built by `BuildUpdate` applied to the
        row with that id; a NaN parameter (a `gst_rate` without a usable
        `cost_price`) makes the statement fail and nothing is written. An id
        that matches no row writes nothing and still succeeds. */
    method UpdateProduct(productId: int, body: Body, now: int) returns (resp: Response)
      requires Valid()
      modifies this
      ensures Valid()
      ensures NaN in Params(Assignments(body)) ==>
        resp == Response(500, "Error updating product") && products == old(products)
      ensures NaN !in Params(Assignments(body)) ==>
        resp == Response(200, "Product updated successfully")
        && products == UpdateRows(old(products), productId, Assignments(body), now)
      ensures nextProductId == old(nextProductId) && orders == old(orders) && payouts == old(payouts)
      ensures paymentMethods == old(paymentMethods) && taxInfo == old(taxInfo)
    {
      var query, params := BuildUpdate(body, productId);
      if NaN in params {
        assert NaN in Params(Assignments(body));
        resp := Response(500, "Error updating product");
        return;
      }
      products := UpdateRows(products, productId, Assignments(body), now);
      resp := Response(200, "Product updated successfully");
    }

    /** `updateOrderStatus`: a status outside the four is a 400 and writes
        nothing; a valid one overwrites the order's status whatever it was,
        stamping the shipping or delivery date. */
    method UpdateOrderStatus(orderId: int, status: Val, now: int) returns (resp: Response)
      requires Valid()
      modifies this
      ensures Valid()
      ensures ParseStatus(status).None? ==> resp == Response(400, "Invalid status") && orders == old(orders)
      ensures ParseStatus(status).Some? ==>
        (resp == Response(200, "Order status updated successfully")
         && orders == UpdateOrderRows(old(orders), orderId, ParseStatus(status).value, now))
      ensures products == old(products) && payouts == old(payouts)
      ensures paymentMethods == old(paymentMethods) && taxInfo == old(taxInfo)
    {
      var s := ParseStatus(status);
      if s.None? {
        resp := Response(400, "Invalid status");
        return;
      }
      orders := UpdateOrderRows(orders, orderId, s.value, now);
      resp := Response(200, "Order status updated successfully");
    }

    /** `getPayoutAnalytics` for one seller, read from the current tables:
        the delivered revenue with its 10 % commission, the pending and the
        paid-out payout totals. */
    function PayoutAnalytics(seller: int): (r: Analytics)
      reads this
      ensures r.totalRevenue == DeliveredRevenue(orders, seller)
      ensures r.totalCommission * 100.0 == r.totalRevenue * CommissionRate
      ensures r.pendingPayout == PendingTotal(payouts, seller) && r.totalPayouts == CompletedNet(payouts, seller)
    {
      ComputeAnalytics(orders, payouts, seller)
    }

    /** `requestPayout`: an invalid amount is a 400 and writes nothing; an
        amount that is not a number makes the insert fail (500); otherwise a
        pending payout is inserted with the 10 % commission and the net
        amount, which raises the seller's pending total by the amount and
        leaves the paid-out total as it was. */
    method RequestPayout(seller: int, amount: Val, payoutNumber: string) returns (resp: Response, net: Option<real>)
      requires Valid()
      modifies this
      ensures Valid()
      ensures InvalidAmount(amount) ==> resp == Response(400, "Invalid amount")
      ensures (InvalidAmount(amount) || ToNumber(amount).None?) ==> payouts == old(payouts) && net == None
      ensures !InvalidAmount(amount) && ToNumber(amount).Some? ==>
        (var a := ToNumber(amount).value;
         resp == Response(201, "Payout request submitted successfully")
         && net == Some(Split(a).1) && 0.0 < Split(a).1 < a
         && payouts == old(payouts) + [PayoutRow(old(nextPayoutId), payoutNumber, seller, a, CommissionRate,
              Split(a).0, Split(a).1, Pending)]
         && PayoutAnalytics(seller).pendingPayout == old(PayoutAnalytics(seller).pendingPayout) + a
         && PayoutAnalytics(seller).totalPayouts == old(PayoutAnalytics(seller).totalPayouts))
      ensures products == old(products) && orders == old(orders)
      ensures paymentMethods == old(paymentMethods) && taxInfo == old(taxInfo)
    {
      net := None;
      if InvalidAmount(amount) {
        resp := Response(400, "Invalid amount");
        return;
      }
      var a := ToNumber(amount);
      if a.None? {
        resp := Response(500, "Error requesting payout");
        return;
      }
      var commission, netAmount := Split(a.value).0, Split(a.value).1;
      var row := PayoutRow(nextPayoutId, payoutNumber, seller, a.value, CommissionRate, commission, netAmount, Pending);
      PayoutAppend(payouts, row, seller);
      payouts := payouts + [row];
      nextPayoutId := nextPayoutId + 1;
      net := Some(netAmount);
      resp := Response(201, "Payout request submitted successfully");
    }

    /** `addPaymentMethod`: a missing account field is a 400 and writes
        nothing. Otherwise a default method first clears the seller's
        defaults, then the row is inserted; the reply masks the account
        number, and an account number that is not a string fails only
        after the row is written (500). */
    method AddPaymentMethod(seller: int, body: Body) returns (resp: Response, masked: Option<string>)
      requires Valid()
      modifies this
      ensures Valid()
      ensures MissingAccountFields(body) ==>
        resp == Response(400, "Missing required fields") && paymentMethods == old(paymentMethods) && masked == None
      ensures !MissingAccountFields(body) ==>
        paymentMethods == WithMethod(old(paymentMethods), PaymentMethodRow(old(nextMethodId), seller,
          Get(body, "bank_name"), Get(body, "account_type"), Get(body, "account_holder"),
          Get(body, "account_number"), Get(body, "ifsc_code"), Truthy(Get(body, "is_default"))))
      ensures !MissingAccountFields(body) && Get(body, "account_number").Str? ==>
        resp == Response(201, "Payment method added successfully")
        && masked == Some(Masked(Get(body, "account_number").s))
      ensures !MissingAccountFields(body) && !Get(body, "account_number").Str? ==>
        resp == Response(500, "Error adding payment method") && masked == None
      ensures products == old(products) && orders == old(orders) && payouts == old(payouts) && taxInfo == old(taxInfo)
    {
      masked := None;
      if MissingAccountFields(body) {
        resp := Response(400, "Missing required fields");
        return;
      }
      var isDefault := Truthy(Get(body, "is_default"));
      var row := PaymentMethodRow(nextMethodId, seller,
        Get(body, "bank_name"), Get(body, "account_type"), Get(body, "account_holder"),
        Get(body, "account_number"), Get(body, "ifsc_code"), isDefault);
      WithMethodDefaults(paymentMethods, row);
      if isDefault {
        paymentMethods := ClearDefaults(paymentMethods, seller);
      }
      paymentMethods := paymentMethods + [row];
      nextMethodId := nextMethodId + 1;
      var number := Get(body, "account_number");
      if !number.Str? {
        resp := Response(500, "Error adding payment method");
        return;
      }
      masked := Some(Masked(number.s));
      resp := Response(201, "Payment method added successfully");
    }

    /** `deletePaymentMethod`: removes the method with that id. */
    method DeletePaymentMethod(methodId: int) returns (resp: Response)
      requires Valid()
      modifies this
      ensures Valid()
      ensures resp == Response(200, "Payment method deleted successfully")
      ensures paymentMethods == DeleteMethod(old(paymentMethods), methodId)
      ensures products == old(products) && orders == old(orders) && payouts == old(payouts) && taxInfo == old(taxInfo)
    {
      DeleteKeepsOneDefault(paymentMethods, methodId);
      paymentMethods := DeleteMethod(paymentMethods, methodId);
      resp := Response(200, "Payment method deleted successfully");
    }

    /** `updateTaxInfo`: looks up the seller's row, then updates it or
        inserts one; absent fields are written as NULL. */
    method UpdateTaxInfo(seller: int, body: Body) returns (resp: Response)
      requires Valid()
      modifies this
      ensures Valid()
      ensures resp == Response(200, "Tax information updated successfully")
      ensures taxInfo == Upsert(old(taxInfo), TaxRow(seller,
        SqlValue(Get(body, "pan_number")), SqlValue(Get(body, "gst_number")),
        SqlValue(Get(body, "tax_year")), SqlValue(Get(body, "filing_status"))))
      ensures products == old(products) && orders == old(orders) && payouts == old(payouts)
      ensures paymentMethods == old(paymentMethods)
    {
      var row := TaxRow(seller,
        SqlValue(Get(body, "pan_number")), SqlValue(Get(body, "gst_number")),
        SqlValue(Get(body, "tax_year")), SqlValue(Get(body, "filing_status")));
      UpsertExactlyOne(taxInfo, row);
      var rows := taxInfo;
      var existing := Seqs.Filter(rows, SameTaxSeller(seller));
      if |existing| > 0 {
        assert existing[0] in rows;
        taxInfo := seq(|rows|, i requires 0 <= i < |rows| => if rows[i].sellerId == seller then row else rows[i]);
      } else {
        assert !HasTaxRow(rows, seller);
        taxInfo := rows + [row];
      }
      resp := Response(200, "Tax information updated successfully");
    }
  }
}

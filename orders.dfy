/** The seller's order list of client/src/pages/seller/Orders.js: search and
    status filter, the status buttons each order offers, the per-order
    status update, the header statistics and the CSV export. */
module Orders {
  import Seqs
  import Text

  /** The client's order states; the page spells the second 'in-transit'. */
  datatype OrderStatus = Processing | InTransit | Delivered | Cancelled

  /** The status filter: 'all' or one state. */
  datatype StatusFilter = All | Only(status: OrderStatus)

  datatype Order = Order(
    id: string, customer: string, product: string, quantity: int, amount: int,
    status: OrderStatus, orderDate: string, deliveryDate: string, pincode: string,
    state: string, location: string, trackingId: string, paymentMethod: string, currency: string)

  /** The status text as the page writes it. */
  function StatusText(s: OrderStatus): string
  {
    match s
    case Processing => "processing"
    case InTransit => "in-transit"
    case Delivered => "delivered"
    case Cancelled => "cancelled"
  }

  /** The status buttons an order shows: "Mark as In Transit" and "Cancel
      Order" while processing, "Mark as Delivered" and "Cancel Order" while
      in transit, none once delivered or cancelled. */
  function Actions(s: OrderStatus): (r: seq<OrderStatus>)
    ensures s.Delivered? || s.Cancelled? <==> r == []
    ensures forall t :: t in r ==> Progress(s) < Progress(t)
    ensures Cancelled in r <==> s.Processing? || s.InTransit?
  {
    match s
    case Processing => [InTransit, Cancelled]
    case InTransit => [Delivered, Cancelled]
    case Delivered => []
    case Cancelled => []
  }

  /** How far along an order is: every offered button moves it forward. */
  function Progress(s: OrderStatus): nat
  {
    match s
    case Processing => 0
    case InTransit => 1
    case Delivered => 2
    case Cancelled => 2
  }

  /** Pressing offered buttons in turn: stops at the first one not offered. */
  function Press(s: OrderStatus, presses: seq<OrderStatus>): OrderStatus
    decreases |presses|
  {
    if presses == [] || presses[0] !in Actions(s) then s else Press(presses[0], presses[1..])
  }

  /** At most two buttons can be pressed on one order, and none of the
      presses leads back: a delivered or cancelled order stays as it is. */
  lemma {:induction false} PressBounded(s: OrderStatus, presses: seq<OrderStatus>)
    ensures Progress(Press(s, presses)) >= Progress(s)
    ensures |presses| >= 2 ==> Press(s, presses) == Press(s, presses[..2])
    ensures s.Delivered? || s.Cancelled? ==> Press(s, presses) == s
    decreases |presses|
  {
    if presses != [] && presses[0] in Actions(s) {
      PressBounded(presses[0], presses[1..]);
      if |presses| >= 2 {
        var t := presses[0];
        var two := presses[..2];
        assert two[0] == t && two[1..] == [presses[1]];
        assert Press(s, two) == Press(t, [presses[1]]);
        assert presses[1..][0] == presses[1] && presses[1..][1..] == presses[2..];
        if presses[1] in Actions(t) {
          assert Actions(presses[1]) == [];
          assert Press(t, presses[1..]) == Press(presses[1], presses[2..]) == presses[1];
          assert Press(t, [presses[1]]) == Press(presses[1], []) == presses[1];
        }
      }
    }
  }

  /** `updateOrderStatus(orderId, newStatus)`. */
  function UpdateOrderStatus(orders: seq<Order>, orderId: string, newStatus: OrderStatus): (r: seq<Order>)
    ensures |r| == |orders|
    ensures forall i :: 0 <= i < |r| ==>
      r[i] == if orders[i].id == orderId then orders[i].(status := newStatus) else orders[i]
  {
    seq(|orders|, i requires 0 <= i < |orders| =>
      if orders[i].id == orderId then orders[i].(status := newStatus) else orders[i])
  }

  /** An update touches only the status: every other field of every order,
      the ids and the order of the list stay as they were, and the orders
      with other ids are unchanged. */
  lemma UpdateOnlyStatus(orders: seq<Order>, orderId: string, newStatus: OrderStatus)
    ensures forall i :: 0 <= i < |orders| ==>
      UpdateOrderStatus(orders, orderId, newStatus)[i].(status := orders[i].status) == orders[i]
    ensures forall i :: 0 <= i < |orders| && orders[i].id != orderId ==>
      UpdateOrderStatus(orders, orderId, newStatus)[i] == orders[i]
    ensures Revenue(UpdateOrderStatus(orders, orderId, newStatus)) == Revenue(orders)
  {
    var r := UpdateOrderStatus(orders, orderId, newStatus);
    forall i | 0 <= i < |orders|
      ensures r[i].(status := orders[i].status) == orders[i] && r[i].amount == orders[i].amount
    {
      if orders[i].id == orderId {
        StatusOnly(orders[i], newStatus);
      }
    }
    RevenueIgnoresStatus(orders, r);
  }

  lemma StatusOnly(o: Order, s: OrderStatus)
    ensures o.(status := s).(status := o.status) == o && o.(status := s).amount == o.amount
  {
  }

  /** The filter's test: the status matches, and the id contains the term
      as typed or the customer or product contains it ignoring case. */
  predicate Matches(o: Order, filter: StatusFilter, term: string)
  {
    (filter.All? || o.status == filter.status)
    && (Text.Contains(o.id, term)
        || Text.Contains(Text.Lower(o.customer), Text.Lower(term))
        || Text.Contains(Text.Lower(o.product), Text.Lower(term)))
  }

  function MatchesTest(filter: StatusFilter, term: string): Order -> bool
  {
    (o: Order) => Matches(o, filter, term)
  }

  /** `filteredOrders`. */
  function FilteredOrders(orders: seq<Order>, filter: StatusFilter, term: string): (r: seq<Order>)
    ensures forall i :: 0 <= i < |r| ==> r[i] in orders && Matches(r[i], filter, term)
    ensures forall i :: 0 <= i < |orders| && Matches(orders[i], filter, term) ==> orders[i] in r
  {
    Seqs.Filter(orders, MatchesTest(filter, term))
  }

  /** The filter keeps the list's order: the filtered list of a list made of
      two parts is the filtered first part followed by the filtered second. */
  lemma FilteredOrdersSplit(a: seq<Order>, b: seq<Order>, filter: StatusFilter, term: string)
    ensures FilteredOrders(a + b, filter, term) == FilteredOrders(a, filter, term) + FilteredOrders(b, filter, term)
  {
    Seqs.FilterAppend(a, b, MatchesTest(filter, term));
  }

  /** With filter 'all' and an empty search every order is shown, in order. */
  lemma FilteredOrdersAll(orders: seq<Order>)
    ensures FilteredOrders(orders, All, "") == orders
  {
    forall i | 0 <= i < |orders| ensures Matches(orders[i], All, "") {
      Text.ContainsEmpty(orders[i].id);
    }
    Seqs.FilterKeepsAll(orders, MatchesTest(All, ""));
  }

  function HasStatus(s: OrderStatus): Order -> bool
  {
    (o: Order) => o.status == s
  }

  /** `orders.filter(o => o.status === s).length`. */
  function StatusCount(orders: seq<Order>, s: OrderStatus): nat
  {
    |Seqs.Filter(orders, HasStatus(s))|
  }

  /** `stats.revenue`: the amounts of all orders, whatever their status. */
  function Revenue(orders: seq<Order>): int
  {
    if orders == [] then 0 else orders[0].amount + Revenue(orders[1..])
  }

  datatype Stats = Stats(total: nat, processing: nat, inTransit: nat, delivered: nat, revenue: int)

  function ComputeStats(orders: seq<Order>): Stats
  {
    Stats(|orders|, StatusCount(orders, Processing), StatusCount(orders, InTransit),
      StatusCount(orders, Delivered), Revenue(orders))
  }

  /** The four state counts add up to the number of orders, so the three
      shown never exceed the total; the shortfall is the cancelled orders. */
  lemma {:induction false} StatsPartition(orders: seq<Order>)
    ensures StatusCount(orders, Processing) + StatusCount(orders, InTransit)
      + StatusCount(orders, Delivered) + StatusCount(orders, Cancelled) == |orders|
    ensures var st := ComputeStats(orders);
      st.processing + st.inTransit + st.delivered <= st.total
  {
    if orders != [] {
      StatsPartition(orders[1..]);
      StatusCountCons(orders, Processing);
      StatusCountCons(orders, InTransit);
      StatusCountCons(orders, Delivered);
      StatusCountCons(orders, Cancelled);
    }
  }

  /** Counting one status over a non-empty list: its first order, then the
      rest. */
  lemma StatusCountCons(orders: seq<Order>, s: OrderStatus)
    requires orders != []
    ensures StatusCount(orders, s) == (if orders[0].status == s then 1 else 0) + StatusCount(orders[1..], s)
  {
  }

  /** Revenue depends on the amounts only, not on the statuses. */
  lemma {:induction false} RevenueIgnoresStatus(a: seq<Order>, b: seq<Order>)
    requires |a| == |b| && forall i :: 0 <= i < |a| ==> a[i].amount == b[i].amount
    ensures Revenue(a) == Revenue(b)
  {
    if a != [] {
      RevenueIgnoresStatus(a[1..], b[1..]);
    }
  }

  const ExportHeader: seq<string> :=
    ["Order ID", "Customer", "Product", "Quantity", "Amount (₹)", "Status", "Order Date", "Delivery Date", "Location"]

  /** One exported order: id, customer, product, quantity, amount, status,
      order date, delivery date and location. */
  function ExportRow(o: Order): (row: seq<string>)
    ensures |row| == |ExportHeader|
  {
    [o.id, o.customer, o.product, Text.ShowInt(o.quantity), Text.ShowInt(o.amount),
     StatusText(o.status), o.orderDate, o.deliveryDate, o.location]
  }

  function ExportRows(orders: seq<Order>): (rows: seq<seq<string>>)
    ensures |rows| == |orders| + 1 && rows[0] == ExportHeader
    ensures forall i :: 0 <= i < |orders| ==> rows[i + 1] == ExportRow(orders[i])
  {
    [ExportHeader] + seq(|orders|, i requires 0 <= i < |orders| => ExportRow(orders[i]))
  }

  /** `exportOrders()`: the CSV text of the filtered orders. */
  function ExportOrders(orders: seq<Order>, filter: StatusFilter, term: string): string
  {
    Text.CsvText(ExportRows(FilteredOrders(orders, filter, term)))
  }

  /** The export has a header line and then one line per shown order, each
      with nine fields in the header's order, provided no text field holds a
      line break (fields are not quoted). */
  lemma ExportShape(orders: seq<Order>, filter: StatusFilter, term: string)
    requires forall i :: 0 <= i < |orders| ==> forall j :: 0 <= j < |ExportRow(orders[i])| ==>
      Text.Count('\n', ExportRow(orders[i])[j]) == 0
    ensures var shown := FilteredOrders(orders, filter, term);
      Text.Count('\n', ExportOrders(orders, filter, term)) == |shown|
  {
    var shown := FilteredOrders(orders, filter, term);
    var rows := ExportRows(shown);
    forall i, j | 0 <= i < |rows| && 0 <= j < |rows[i]| ensures Text.Count('\n', rows[i][j]) == 0 {
      if i == 0 {
        Text.NoCount('\n', rows[0][j]);
      } else {
        assert shown[i - 1] in orders;
      }
    }
    Text.CsvLines(rows);
  }
}

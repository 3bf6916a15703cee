/** The vendor's order list (src/pages/vendor/VendorOrders.tsx): every fetched order that
    has items becomes a summary with a short upper-case label and a computed total; a
    search box filters the summaries, and one order at a time can be expanded. */
module VendorOrders {
  import opened Common

  datatype OrderItem = OrderItem(id: string, name: string, price: int, quantity: int, imageUrl: string)

  /** An `orders` row. `items` is None when the stored value is not an array. */
  datatype OrderRow = OrderRow(
    id: string,
    userName: string,
    userEmail: string,
    userPhone: string,
    userAddress: string,
    items: Option<seq<OrderItem>>,
    createdAt: string)

  datatype VendorOrder = VendorOrder(
    id: string,
    orderId: string,
    customerName: string,
    customerEmail: string,
    customerPhone: string,
    customerAddress: string,
    items: seq<OrderItem>,
    totalAmount: int,
    createdAt: string)

  /** `Array.isArray(order.items) ? order.items : []`. */
  function ItemsOf(row: OrderRow): seq<OrderItem>
  {
    match row.items
    case None => []
    case Some(items) => items
  }

  /** The reduce `sum + item.price * item.quantity` from 0, left to right. */
  function ItemsTotal(items: seq<OrderItem>): int
  {
    if items == [] then 0
    else ItemsTotal(items[..|items| - 1]) + items[|items| - 1].price * items[|items| - 1].quantity
  }

  /** `id.slice(0, 8).toUpperCase()`: the first eight characters (all of a shorter id),
      upper-cased. */
  function OrderLabel(id: string): (short: string)
    ensures |short| == if |id| < 8 then |id| else 8
    ensures forall i :: 0 <= i < |short| ==> short[i] == UpperChar(id[i])
  {
    Upper(if |id| < 8 then id else id[..8])
  }

  function Summarise(row: OrderRow): VendorOrder
  {
    VendorOrder(row.id, OrderLabel(row.id), row.userName, row.userEmail, row.userPhone,
                row.userAddress, ItemsOf(row), ItemsTotal(ItemsOf(row)), row.createdAt)
  }

  predicate HasItems(row: OrderRow)
  {
    ItemsOf(row) != []
  }

  /** The list the forEach builds, one row at a time. */
  function VendorOrdersOf(rows: seq<OrderRow>): seq<VendorOrder>
  {
    if rows == [] then
      []
    else
      var last := rows[|rows| - 1];
      VendorOrdersOf(rows[..|rows| - 1]) + (if HasItems(last) then [Summarise(last)] else [])
  }

  function SummariseAll(rows: seq<OrderRow>): (r: seq<VendorOrder>)
    ensures |r| == |rows| && forall i :: 0 <= i < |rows| ==> r[i] == Summarise(rows[i])
  {
    seq(|rows|, i requires 0 <= i < |rows| => Summarise(rows[i]))
  }

  lemma SummariseAllAppend(a: seq<OrderRow>, b: seq<OrderRow>)
    ensures SummariseAll(a + b) == SummariseAll(a) + SummariseAll(b)
  {
  }

  lemma FilterLast(init: seq<OrderRow>, last: OrderRow)
    ensures Filter(init + [last], HasItems) == Filter(init, HasItems) + (if HasItems(last) then [last] else [])
  {
    FilterAppend(init, [last], HasItems);
    assert [last][1..] == [];
  }

  /** The aggregation is "keep the rows with items, in order, and summarise each": no
      vendor filtering happens, and rows without items are dropped. */
  lemma {:induction false} VendorOrdersAreSummariesOfRowsWithItems(rows: seq<OrderRow>)
    ensures VendorOrdersOf(rows) == SummariseAll(Filter(rows, HasItems))
  {
    if rows != [] {
      var init, last := rows[..|rows| - 1], rows[|rows| - 1];
      assert rows == init + [last];
      VendorOrdersAreSummariesOfRowsWithItems(init);
      var tail := if HasItems(last) then [last] else [];
      FilterLast(init, last);
      assert Filter(rows, HasItems) == Filter(init, HasItems) + tail;
      SummariseAllAppend(Filter(init, HasItems), tail);
      assert SummariseAll(tail) == (if HasItems(last) then [Summarise(last)] else []);
      assert VendorOrdersOf(rows) == VendorOrdersOf(init) + SummariseAll(tail);
    }
  }

  /** Every summary has items, carries the total of its items and the label of its id,
      and comes from a fetched row with items. */
  lemma VendorOrdersSound(rows: seq<OrderRow>)
    ensures |VendorOrdersOf(rows)| <= |rows|
    ensures forall i :: 0 <= i < |VendorOrdersOf(rows)| ==>
      && VendorOrdersOf(rows)[i].items != []
      && VendorOrdersOf(rows)[i].totalAmount == ItemsTotal(VendorOrdersOf(rows)[i].items)
      && VendorOrdersOf(rows)[i].orderId == OrderLabel(VendorOrdersOf(rows)[i].id)
    ensures forall i :: 0 <= i < |VendorOrdersOf(rows)| ==>
      exists j :: 0 <= j < |rows| && HasItems(rows[j]) && VendorOrdersOf(rows)[i] == Summarise(rows[j])
  {
    VendorOrdersAreSummariesOfRowsWithItems(rows);
    var kept := Filter(rows, HasItems);
    var out := VendorOrdersOf(rows);
    FilterKeeps(rows, HasItems);
    forall i | 0 <= i < |out|
      ensures out[i].items != [] && out[i].totalAmount == ItemsTotal(out[i].items)
      ensures out[i].orderId == OrderLabel(out[i].id)
      ensures exists j :: 0 <= j < |rows| && HasItems(rows[j]) && out[i] == Summarise(rows[j])
    {
      var row := kept[i];
      assert out[i] == Summarise(row);
      assert row in rows && HasItems(row);
      var j :| 0 <= j < |rows| && rows[j] == row;
    }
  }

  lemma SummaryOfMember(rows: seq<OrderRow>, row: OrderRow)
    requires row in rows
    ensures Summarise(row) in SummariseAll(rows)
  {
    var k :| 0 <= k < |rows| && rows[k] == row;
    assert SummariseAll(rows)[k] == Summarise(row);
  }

  /** Every fetched row with items has its summary in the list. */
  lemma VendorOrdersComplete(rows: seq<OrderRow>)
    ensures forall j :: 0 <= j < |rows| && HasItems(rows[j]) ==> Summarise(rows[j]) in VendorOrdersOf(rows)
  {
    VendorOrdersAreSummariesOfRowsWithItems(rows);
    var kept := Filter(rows, HasItems);
    FilterKeeps(rows, HasItems);
    forall j | 0 <= j < |rows| && HasItems(rows[j])
      ensures Summarise(rows[j]) in SummariseAll(kept)
    {
      SummaryOfMember(kept, rows[j]);
    }
  }

  /** The reduce over one order's items. */
  method SumItems(items: seq<OrderItem>) returns (total: int)
    ensures total == ItemsTotal(items)
  {
    total := 0;
    for i := 0 to |items|
      invariant total == ItemsTotal(items[..i])
    {
      assert items[..i + 1][..i] == items[..i];
      total := total + items[i].price * items[i].quantity;
    }
    assert items[..|items|] == items;
  }

  /** The forEach of fetchVendorOrders. */
  method CollectVendorOrders(data: seq<OrderRow>) returns (vendorOrders: seq<VendorOrder>)
    ensures vendorOrders == VendorOrdersOf(data)
  {
    vendorOrders := [];
    for i := 0 to |data|
      invariant vendorOrders == VendorOrdersOf(data[..i])
    {
      assert data[..i + 1][..i] == data[..i];
      var order := data[i];
      var items := ItemsOf(order);
      if |items| == 0 {
        continue;
      }
      var total := SumItems(items);
      vendorOrders := vendorOrders + [VendorOrder(order.id, OrderLabel(order.id), order.userName,
        order.userEmail, order.userPhone, order.userAddress, items, total, order.createdAt)];
    }
    assert data[..|data|] == data;
  }

  // ---------------------------------------------------------------------------
  // Search and expansion

  /** The lower-cased label or customer name contains the lower-cased query. */
  predicate Matches(o: VendorOrder, search: string)
  {
    Includes(Lower(o.orderId), Lower(search)) || Includes(Lower(o.customerName), Lower(search))
  }

  function Searched(orders: seq<VendorOrder>, search: string): seq<VendorOrder>
  {
    Filter(orders, (o: VendorOrder) => Matches(o, search))
  }

  /** The search keeps exactly the matching orders, each as often as it occurs, in their
      order; an empty query keeps every order. */
  lemma SearchSpec(orders: seq<VendorOrder>, search: string)
    ensures IsSubsequence(Searched(orders, search), orders)
    ensures forall i :: 0 <= i < |Searched(orders, search)| ==> Matches(Searched(orders, search)[i], search)
    ensures forall i :: 0 <= i < |orders| && Matches(orders[i], search) ==> orders[i] in Searched(orders, search)
    ensures forall o :: multiset(Searched(orders, search))[o] == if Matches(o, search) then multiset(orders)[o] else 0
    ensures search == "" ==> Searched(orders, search) == orders
  {
    FilterSpec(orders, (o: VendorOrder) => Matches(o, search));
    if search == "" {
      forall i | 0 <= i < |orders|
        ensures Matches(orders[i], search)
      {
        IncludesEmpty(Lower(orders[i].orderId));
      }
      FilterKeepsAll(orders, (o: VendorOrder) => Matches(o, search));
    }
  }

  class VendorOrdersPage {
    var orders: seq<VendorOrder>
    var filteredOrders: seq<VendorOrder>
    var search: string
    var expandedOrder: Option<string>

    constructor ()
      ensures orders == [] && filteredOrders == [] && search == "" && expandedOrder == None
    {
      orders := [];
      filteredOrders := [];
      search := "";
      expandedOrder := None;
    }

    /** fetchVendorOrders: without a user, or when the select fails, the lists stay as they
        were; otherwise both lists are set to the aggregation of the fetched rows, and the
        effect on [search, orders] then narrows the shown list to the current query. */
    method FetchVendorOrders(user: Option<string>, data: Option<seq<OrderRow>>) returns (requests: seq<Request>)
      modifies this`orders, this`filteredOrders
      ensures user.None? ==> requests == [GetUser] && orders == old(orders) && filteredOrders == old(filteredOrders)
      ensures user.Some? ==> requests == [GetUser, Select("orders")]
      ensures user.Some? && data.None? ==> orders == old(orders) && filteredOrders == old(filteredOrders)
      ensures user.Some? && data.Some? ==>
        orders == VendorOrdersOf(data.value) && filteredOrders == Searched(orders, search)
    {
      requests := [GetUser];
      if user.None? {
        return;
      }
      requests := requests + [Select("orders")];
      if data.None? {
        return;
      }
      var collected := CollectVendorOrders(data.value);
      orders := collected;
      filteredOrders := collected;
      // The orders changed, so the search effect runs.
      filteredOrders := Searched(orders, search);
    }

    /** A new query; the effect on [search, orders] then refilters. */
    method SetSearch(query: string)
      modifies this`search, this`filteredOrders
      ensures search == query && filteredOrders == Searched(orders, query)
    {
      search := query;
      filteredOrders := Searched(orders, query);
    }

    method ToggleExpand(id: string)
      modifies this`expandedOrder
      ensures expandedOrder == Toggled(old(expandedOrder), id)
    {
      expandedOrder := Toggled(expandedOrder, id);
    }
  }
}

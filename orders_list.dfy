/** The admin order list (src/pages/admin/OrdersList.tsx): the defensive reading of an
    order's stored items, the status badge, and the local list kept in step with status
    changes and deletions that the backend confirmed. */
module OrdersList {
  import opened Common
  import opened JsValues
  import KeyedList

  /** An `orders` row as the list holds it; `items` is whatever the backend stored. */
  datatype AdminOrder = AdminOrder(
    id: string,
    userName: string,
    userEmail: string,
    totalAmount: int,
    status: string,
    items: JsValue,
    createdAt: string)

  function OrderKey(o: AdminOrder): string { o.id }

  /** getItemsArray. `parse` is JSON.parse, None when it throws. */
  function GetItemsArray(items: JsValue, parse: string -> Option<JsValue>): JsValue
  {
    if !Truthy(items) then JArr([])
    else if items.JStr? then
      match parse(items.s)
      case None => JArr([])
      case Some(v) => v
    else if items.JArr? then items
    else JArr([])
  }

  /** A falsy value and a value that is neither a string nor an array give []; an array
      is returned as it is; a string gives what JSON.parse returns, without checking that
      it is an array, or [] when parsing throws. */
  lemma GetItemsArrayCases(items: JsValue, parse: string -> Option<JsValue>)
    ensures !Truthy(items) ==> GetItemsArray(items, parse) == JArr([])
    ensures Truthy(items) && !items.JStr? && !items.JArr? ==> GetItemsArray(items, parse) == JArr([])
    ensures items.JArr? ==> GetItemsArray(items, parse) == items
    ensures items.JStr? && items.s != "" ==>
      GetItemsArray(items, parse) == (if parse(items.s).Some? then parse(items.s).value else JArr([]))
    ensures !items.JStr? ==> GetItemsArray(items, parse).JArr?
  {
  }

  /** A stored string that parses to something other than an array comes back as that
      value: with a parser that reads "5" as the number 5, the items are the number 5. */
  lemma ParsedNonArrayKept(parse: string -> Option<JsValue>)
    requires parse("5") == Some(JNum(5))
    ensures GetItemsArray(JStr("5"), parse) == JNum(5)
  {
  }

  datatype BadgeColour = Green | Red | Yellow

  /** The status select's colour. */
  function StatusBadge(status: string): BadgeColour
  {
    if status == "completed" then Green
    else if status == "cancelled" then Red
    else Yellow
  }

  /** Green exactly for "completed", red exactly for "cancelled", yellow for every other
      status, including ones outside the select's options. */
  lemma StatusBadgeCases(status: string)
    ensures StatusBadge(status) == Green <==> status == "completed"
    ensures StatusBadge(status) == Red <==> status == "cancelled"
    ensures StatusBadge(status) == Yellow <==> status != "completed" && status != "cancelled"
  {
  }

  /** The list after a confirmed status change. */
  function WithStatus(orders: seq<AdminOrder>, id: string, status: string): seq<AdminOrder>
  {
    KeyedList.ReplaceId(orders, OrderKey, id, (o: AdminOrder) => o.(status := status))
  }

  /** A status change keeps the length, gives the orders with that id the new status and
      nothing else, and leaves every other order as it was. */
  lemma StatusChangeOnlyTouchesId(orders: seq<AdminOrder>, id: string, status: string)
    ensures |WithStatus(orders, id, status)| == |orders|
    ensures forall i :: 0 <= i < |orders| && orders[i].id == id ==>
      WithStatus(orders, id, status)[i] == orders[i].(status := status)
    ensures forall i :: 0 <= i < |orders| && orders[i].id != id ==>
      WithStatus(orders, id, status)[i] == orders[i]
  {
    forall i | 0 <= i < |orders|
      ensures OrderKey(orders[i]) == orders[i].id
    {
    }
  }

  const LoadFailedAlert := "Failed to load orders"
  const StatusFailedAlert := "Failed to update order status"
  const DeletedAlert := "Order deleted successfully!"
  const DeleteFailedAlert := "Failed to delete order"

  class OrdersListPage {
    var orders: seq<AdminOrder>
    var loading: bool
    var expandedOrder: Option<string>
    var alerts: seq<string>

    constructor ()
      ensures orders == [] && loading && expandedOrder == None && alerts == []
    {
      orders := [];
      loading := true;
      expandedOrder := None;
      alerts := [];
    }

    /** fetchOrders. `data` is the select's answer: an error keeps the list and alerts;
        otherwise the list becomes the rows, or [] when the answer carries no rows.
        Loading ends either way. */
    method FetchOrders(data: Result<Option<seq<AdminOrder>>>) returns (requests: seq<Request>)
      modifies this`orders, this`loading, this`alerts
      ensures requests == [Select("orders")] && !loading
      ensures data.Err? ==> orders == old(orders) && alerts == old(alerts) + [LoadFailedAlert]
      ensures data.Ok? ==> orders == (if data.value.Some? then data.value.value else []) && alerts == old(alerts)
    {
      loading := true;
      requests := [Select("orders")];
      if data.Err? {
        alerts := alerts + [LoadFailedAlert];
      } else {
        orders := if data.value.Some? then data.value.value else [];
      }
      loading := false;
    }

    /** handleStatusChange: one update request; the list changes only when it succeeds. */
    method HandleStatusChange(id: string, newStatus: string, outcome: Outcome) returns (requests: seq<Request>)
      modifies this`orders, this`alerts
      ensures requests == [Update("orders", id)]
      ensures outcome == Succeeded ==> orders == WithStatus(old(orders), id, newStatus) && alerts == old(alerts)
      ensures outcome == Failed ==> orders == old(orders) && alerts == old(alerts) + [StatusFailedAlert]
    {
      requests := [Update("orders", id)];
      if outcome == Failed {
        alerts := alerts + [StatusFailedAlert];
        return;
      }
      orders := WithStatus(orders, id, newStatus);
    }

    /** handleDelete: a declined confirm sends nothing; otherwise one delete request, and
        the order leaves the list only when the delete succeeded. */
    method HandleDelete(id: string, confirmed: bool, outcome: Outcome) returns (requests: seq<Request>)
      modifies this`orders, this`alerts
      ensures !confirmed ==> requests == [] && orders == old(orders) && alerts == old(alerts)
      ensures confirmed ==> requests == [Delete("orders", id)]
      ensures confirmed && outcome == Succeeded ==>
        orders == KeyedList.WithoutId(old(orders), OrderKey, id) && alerts == old(alerts) + [DeletedAlert]
      ensures confirmed && outcome == Failed ==> orders == old(orders) && alerts == old(alerts) + [DeleteFailedAlert]
    {
      requests := [];
      if !confirmed {
        return;
      }
      requests := [Delete("orders", id)];
      if outcome == Failed {
        alerts := alerts + [DeleteFailedAlert];
        return;
      }
      orders := KeyedList.WithoutId(orders, OrderKey, id);
      alerts := alerts + [DeletedAlert];
    }

    method ToggleExpand(id: string)
      modifies this`expandedOrder
      ensures expandedOrder == Toggled(old(expandedOrder), id)
    {
      expandedOrder := Toggled(expandedOrder, id);
    }
  }
}

/** The admin's vendor list (src/pages/admin/AdminVendorManagement.tsx): the fetched
    `vendors` rows, kept in step with status changes and deletions the backend accepted. */
module AdminVendorManagement {
  import opened Common
  import KeyedList

  /** A `vendors` row; its status is one of 'pending', 'approved', 'rejected'. */
  datatype Vendor = Vendor(
    id: string,
    businessName: string,
    ownerName: string,
    email: string,
    phone: string,
    cacUrl: string,
    status: VendorStatus)

  function VendorKey(v: Vendor): string { v.id }

  /** The list after an accepted status change. */
  function WithStatus(vendors: seq<Vendor>, id: string, status: VendorStatus): seq<Vendor>
  {
    KeyedList.ReplaceId(vendors, VendorKey, id, (v: Vendor) => v.(status := status))
  }

  /** A status change keeps the length, gives the vendors with that id the new status
      with every other field kept, and leaves every other vendor as it was. */
  lemma StatusChangeOnlyTouchesId(vendors: seq<Vendor>, id: string, status: VendorStatus)
    ensures |WithStatus(vendors, id, status)| == |vendors|
    ensures forall i :: 0 <= i < |vendors| && vendors[i].id == id ==>
      WithStatus(vendors, id, status)[i] == vendors[i].(status := status)
    ensures forall i :: 0 <= i < |vendors| && vendors[i].id != id ==>
      WithStatus(vendors, id, status)[i] == vendors[i]
  {
    forall i | 0 <= i < |vendors|
      ensures VendorKey(vendors[i]) == vendors[i].id
    {
    }
  }

  const FetchFailedAlert := "Failed to fetch vendors. Check console."
  const StatusFailedAlert := "Failed to update vendor status."
  const DeleteFailedAlert := "Failed to delete vendor."

  class VendorManagementPage {
    var vendors: seq<Vendor>
    var loading: bool
    var alerts: seq<string>

    constructor ()
      ensures vendors == [] && loading && alerts == []
    {
      vendors := [];
      loading := true;
      alerts := [];
    }

    /** fetchVendors. `data` is the select's answer: an error keeps the list and
        alerts; otherwise the list becomes the rows, or [] when the answer carries no rows.
        Loading ends either way. */
    method FetchVendors(data: Result<Option<seq<Vendor>>>) returns (requests: seq<Request>)
      modifies this`vendors, this`loading, this`alerts
      ensures requests == [Select("vendors")] && !loading
      ensures data.Err? ==> vendors == old(vendors) && alerts == old(alerts) + [FetchFailedAlert]
      ensures data.Ok? ==> vendors == (if data.value.Some? then data.value.value else []) && alerts == old(alerts)
    {
      loading := true;
      requests := [Select("vendors")];
      if data.Err? {
        alerts := alerts + [FetchFailedAlert];
      } else {
        vendors := if data.value.Some? then data.value.value else [];
      }
      loading := false;
    }

    /** updateStatus: one update request; the list changes only when it succeeds. */
    method UpdateStatus(id: string, status: VendorStatus, outcome: Outcome) returns (requests: seq<Request>)
      modifies this`vendors, this`alerts
      ensures requests == [Update("vendors", id)]
      ensures outcome == Succeeded ==> vendors == WithStatus(old(vendors), id, status) && alerts == old(alerts)
      ensures outcome == Failed ==> vendors == old(vendors) && alerts == old(alerts) + [StatusFailedAlert]
    {
      requests := [Update("vendors", id)];
      if outcome == Failed {
        alerts := alerts + [StatusFailedAlert];
        return;
      }
      vendors := WithStatus(vendors, id, status);
    }

    /** deleteVendor: a declined confirm sends nothing; otherwise one delete request, and
        the vendor leaves the list only when the delete succeeded. */
    method DeleteVendor(id: string, confirmed: bool, outcome: Outcome) returns (requests: seq<Request>)
      modifies this`vendors, this`alerts
      ensures !confirmed ==> requests == [] && vendors == old(vendors) && alerts == old(alerts)
      ensures confirmed ==> requests == [Delete("vendors", id)]
      ensures confirmed && outcome == Succeeded ==>
        vendors == KeyedList.WithoutId(old(vendors), VendorKey, id) && alerts == old(alerts)
      ensures confirmed && outcome == Failed ==> vendors == old(vendors) && alerts == old(alerts) + [DeleteFailedAlert]
    {
      requests := [];
      if !confirmed {
        return;
      }
      requests := [Delete("vendors", id)];
      if outcome == Failed {
        alerts := alerts + [DeleteFailedAlert];
        return;
      }
      vendors := KeyedList.WithoutId(vendors, VendorKey, id);
    }
  }
}

/** The vendor's product list (src/pages/vendor/VendorProducts.tsx): products are loaded
    only for an approved vendor, a stock badge colours each card, a search box filters
    the list, and a confirmed delete drops the product from the local list. */
module VendorProducts {
  import opened Common
  import KeyedList

  datatype VendorProduct = VendorProduct(
    id: string,
    name: string,
    price: int,
    stock: int,
    imageUrl: Option<string>,
    category: string,
    subcategory: string)

  function ProductKey(p: VendorProduct): string { p.id }

  /** The signed-in user's `vendors` row. */
  datatype VendorData = VendorData(id: string, businessName: string, status: VendorStatus)

  // ---------------------------------------------------------------------------
  // Stock badge

  datatype StockColour = RedBadge | YellowBadge | GreenBadge

  function StockBadge(stock: int): StockColour
  {
    if stock == 0 then RedBadge
    else if stock < 10 then YellowBadge
    else GreenBadge
  }

  /** Red exactly for an empty stock, yellow for a stock below 10 that is not 0 (negative
      stock included), green from 10 up. */
  lemma StockBadgeCases(stock: int)
    ensures StockBadge(stock) == RedBadge <==> stock == 0
    ensures StockBadge(stock) == YellowBadge <==> stock < 10 && stock != 0
    ensures StockBadge(stock) == GreenBadge <==> stock >= 10
  {
  }

  // ---------------------------------------------------------------------------
  // Search

  /** The lower-cased name or category contains the lower-cased query. */
  predicate Matches(p: VendorProduct, search: string)
  {
    Includes(Lower(p.name), Lower(search)) || Includes(Lower(p.category), Lower(search))
  }

  function Filtered(products: seq<VendorProduct>, search: string): seq<VendorProduct>
  {
    Filter(products, (p: VendorProduct) => Matches(p, search))
  }

  /** The shown list keeps exactly the matching products, each as often as it occurs, in
      their order; an empty query shows every product. */
  lemma FilteredSpec(products: seq<VendorProduct>, search: string)
    ensures IsSubsequence(Filtered(products, search), products)
    ensures forall i :: 0 <= i < |Filtered(products, search)| ==> Matches(Filtered(products, search)[i], search)
    ensures forall i :: 0 <= i < |products| && Matches(products[i], search) ==> products[i] in Filtered(products, search)
    ensures forall p :: multiset(Filtered(products, search))[p] ==
                  if Matches(p, search) then multiset(products)[p] else 0
    ensures search == "" ==> Filtered(products, search) == products
  {
    FilterSpec(products, (p: VendorProduct) => Matches(p, search));
    if search == "" {
      forall i | 0 <= i < |products|
        ensures Matches(products[i], search)
      {
        IncludesEmpty(Lower(products[i].name));
      }
      FilterKeepsAll(products, (p: VendorProduct) => Matches(p, search));
    }
  }

  // ---------------------------------------------------------------------------
  // What the page shows

  const UnderReviewMessage := "Your vendor account is under review."
  const RejectedMessage := "Your vendor account was rejected. Contact admin."

  datatype ProductsView =
    | Spinner
    | AccessRestricted(message: string)
    | Listing(shown: seq<VendorProduct>, canAdd: bool)

  /** The render: a spinner while loading, the warning card for a vendor that is not
      approved, and otherwise the filtered grid with the "Add Product" button. With
      loading over and no vendor, `vendor!.status` throws. */
  function ViewOf(loading: bool, vendor: Option<VendorData>, products: seq<VendorProduct>, search: string)
    : Result<ProductsView>
  {
    if loading then Ok(Spinner)
    else if vendor.None? then Err("TypeError: vendor is null")
    else if vendor.value.status != Approved then
      Ok(AccessRestricted(if vendor.value.status == Pending then UnderReviewMessage else RejectedMessage))
    else Ok(Listing(Filtered(products, search), true))
  }

  /** Once loaded, the grid is shown exactly for an approved vendor, and a pending and a
      rejected vendor read different warnings. */
  lemma ViewCases(vendor: VendorData, products: seq<VendorProduct>, search: string)
    ensures ViewOf(false, Some(vendor), products, search).Ok?
    ensures ViewOf(false, Some(vendor), products, search).value.Listing? <==> vendor.status == Approved
    ensures vendor.status == Approved ==>
      ViewOf(false, Some(vendor), products, search).value.shown == Filtered(products, search)
    ensures vendor.status == Pending ==>
      ViewOf(false, Some(vendor), products, search) == Ok(AccessRestricted(UnderReviewMessage))
    ensures vendor.status == Rejected ==>
      ViewOf(false, Some(vendor), products, search) == Ok(AccessRestricted(RejectedMessage))
  {
  }

  const LoginRoute := "/vendor/login"
  const RegisterRoute := "/vendor/register"

  class VendorProductsPage {
    var loading: bool
    var vendor: Option<VendorData>
    var products: seq<VendorProduct>
    var search: string
    var deleteId: Option<string>
    var navigations: seq<string>

    /** Loading is over only once a vendor is known, so the render never meets a null
        vendor. */
    ghost predicate Valid()
      reads this
    {
      !loading ==> vendor.Some?
    }

    constructor ()
      ensures Valid()
      ensures loading && vendor == None && products == [] && search == "" && deleteId == None
      ensures navigations == []
    {
      loading := true;
      vendor := None;
      products := [];
      search := "";
      deleteId := None;
      navigations := [];
    }

    /** loadData. `user` is the signed-in user's id, `vendorRow` the `vendors` row for it
        and `productData` what the products select returned. Without a user or a vendor
        row the page navigates away and keeps its spinner; otherwise the vendor is kept,
        the products are fetched only for an approved vendor, and loading ends. */
    method LoadData(user: Option<string>, vendorRow: Option<VendorData>, productData: Option<seq<VendorProduct>>)
      returns (requests: seq<Request>)
      requires Valid()
      modifies this`loading, this`vendor, this`products, this`navigations
      ensures Valid()
      ensures user.None? ==>
        requests == [GetUser] && loading && vendor == old(vendor) && products == old(products)
        && navigations == old(navigations) + [LoginRoute]
      ensures user.Some? && vendorRow.None? ==>
        requests == [GetUser, Select("vendors")] && loading && vendor == old(vendor)
        && products == old(products) && navigations == old(navigations) + [RegisterRoute]
      ensures user.Some? && vendorRow.Some? ==>
        !loading && vendor == vendorRow && navigations == old(navigations)
      ensures user.Some? && vendorRow.Some? && vendorRow.value.status == Approved ==>
        requests == [GetUser, Select("vendors"), Select("products")]
        && products == (if productData.Some? then productData.value else [])
      ensures user.Some? && vendorRow.Some? && vendorRow.value.status != Approved ==>
        requests == [GetUser, Select("vendors")] && products == old(products)
    {
      loading := true;
      requests := [GetUser];
      if user.None? {
        navigations := navigations + [LoginRoute];
        return;
      }
      requests := requests + [Select("vendors")];
      if vendorRow.None? {
        navigations := navigations + [RegisterRoute];
        return;
      }
      vendor := vendorRow;
      if vendorRow.value.status == Approved {
        requests := requests + [Select("products")];
        products := if productData.Some? then productData.value else [];
      }
      loading := false;
    }

    method SetSearch(query: string)
      modifies this`search
      ensures search == query
    {
      search := query;
    }

    /** A card's delete button opens the confirm dialog for that product; Cancel closes
        it. */
    method SetDeleteId(id: Option<string>)
      modifies this`deleteId
      ensures deleteId == id
    {
      deleteId := id;
    }

    /** confirmDelete. Without a (non-empty) id or a vendor nothing happens. Otherwise one
        delete request goes out and the product leaves the local list whatever the
        backend `outcome` was, since the result is not checked; the dialog closes. */
    method ConfirmDelete(outcome: Outcome) returns (requests: seq<Request>)
      modifies this`products, this`deleteId
      ensures old(deleteId) in {None, Some("")} || vendor.None? ==>
        requests == [] && products == old(products) && deleteId == old(deleteId)
      ensures old(deleteId) !in {None, Some("")} && vendor.Some? ==>
        && requests == [Delete("products", old(deleteId).value)]
        && products == KeyedList.WithoutId(old(products), ProductKey, old(deleteId).value)
        && deleteId == None
    {
      requests := [];
      if deleteId.None? || deleteId.value == "" || vendor.None? {
        return;
      }
      var id := deleteId.value;
      requests := [Delete("products", id)];
      products := KeyedList.WithoutId(products, ProductKey, id);
      deleteId := None;
    }
  }
}

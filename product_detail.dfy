/** The product page (src/pages/ProductDetail.tsx): normalisation of the loosely-typed
    `vendors` value of a product row into a display record and a vendor id, the quantity
    stepper, the add-to-cart loop, the review form, and the star string of a review. */
module ProductDetail {
  import opened Common
  import opened JsValues
  import CartContext

  // ---------------------------------------------------------------------------
  // Vendor normalisation

  /** The display record `{ id, name }`. The id is whatever `(vendors).id || ''` gave,
      which need not be a string. */
  datatype VendorInfo = VendorInfo(id: JsValue, name: string)

  /** Which of the four branches of the normalisation a `vendors` value takes. */
  datatype VendorShape =
    | FromArray(first: JsValue)
    | FromObject(obj: JsValue)
    | FromString(name: string)
    | Unrecognised

  /** `v && typeof v === 'object' && key in v && typeof v[key] === 'string'`. */
  predicate HasStringKey(v: JsValue, key: string)
  {
    Truthy(v) && IsObjectLike(v) && HasKey(v, key) && IsString(Get(v, key))
  }

  /** The branch taken: a non-empty array, an object with a string business_name, a
      string, or anything else. Exactly one applies to every value. */
  function Classify(vendors: JsValue): (shape: VendorShape)
    ensures shape.FromArray? <==> vendors.JArr? && |vendors.elems| > 0
    ensures shape.FromObject? <==> !vendors.JArr? && HasStringKey(vendors, "business_name")
    ensures shape.FromString? <==> vendors.JStr?
    ensures shape.Unrecognised? <==>
      !(vendors.JArr? && |vendors.elems| > 0) && !HasStringKey(vendors, "business_name") && !vendors.JStr?
    ensures shape.FromArray? ==> shape.first == vendors.elems[0]
    ensures shape.FromObject? ==> shape.obj == vendors
    ensures shape.FromString? ==> shape.name == vendors.s
  {
    if vendors.JArr? && |vendors.elems| > 0 then FromArray(vendors.elems[0])
    else if HasStringKey(vendors, "business_name") then FromObject(vendors)
    else if vendors.JStr? then FromString(vendors.s)
    else Unrecognised
  }

  /** The string under `key` when there is one, '' otherwise. */
  function StringKeyOrEmpty(v: JsValue, key: string): string
  {
    if HasStringKey(v, key) then Get(v, key).s else ""
  }

  function Display(shape: VendorShape): VendorInfo
  {
    match shape
    case FromArray(v) => VendorInfo(JStr(StringKeyOrEmpty(v, "id")), StringKeyOrEmpty(v, "business_name"))
    case FromObject(o) => VendorInfo(OrEmpty(Get(o, "id")), StringKeyOrEmpty(o, "business_name"))
    case FromString(s) => VendorInfo(JStr(""), s)
    case Unrecognised => VendorInfo(JStr(""), "")
  }

  /** The `vendor` record built in fetchProduct. */
  function NormaliseVendor(vendors: JsValue): VendorInfo
  {
    Display(Classify(vendors))
  }

  /** The `vendor_id` field built in fetchProduct: the first array element's string id,
      else the object's string id, else ''. */
  function VendorId(vendors: JsValue): string
  {
    if vendors.JArr? && |vendors.elems| > 0 && HasStringKey(vendors.elems[0], "id") then
      Get(vendors.elems[0], "id").s
    else if HasStringKey(vendors, "id") then
      Get(vendors, "id").s
    else
      ""
  }

  /** What each of the four branches yields: the display name is the first element's
      string business_name, the object's business_name, the string itself, or ''; the id
      is a string in every branch except the object branch, where it is any truthy id or
      ''. */
  lemma NormalisationCases(vendors: JsValue)
    ensures vendors.JArr? && |vendors.elems| > 0 ==>
      NormaliseVendor(vendors) == VendorInfo(JStr(StringKeyOrEmpty(vendors.elems[0], "id")),
                                             StringKeyOrEmpty(vendors.elems[0], "business_name"))
    ensures !vendors.JArr? && HasStringKey(vendors, "business_name") ==>
      NormaliseVendor(vendors).name == Get(vendors, "business_name").s
      && (Truthy(Get(vendors, "id")) ==> NormaliseVendor(vendors).id == Get(vendors, "id"))
      && (!Truthy(Get(vendors, "id")) ==> NormaliseVendor(vendors).id == JStr(""))
    ensures vendors.JStr? ==> NormaliseVendor(vendors) == VendorInfo(JStr(""), vendors.s)
    ensures Classify(vendors).Unrecognised? ==> NormaliseVendor(vendors) == VendorInfo(JStr(""), "")
    ensures !Classify(vendors).FromObject? ==> NormaliseVendor(vendors).id.JStr?
  {
  }

  /** Outside the unrecognised branch, a string id on the display record is exactly the
      `vendor_id` field; an object without a string business_name is where they part
      (see VendorIdWithoutBusinessName). */
  lemma VendorIdAgreesWithRecord(vendors: JsValue)
    requires !Classify(vendors).Unrecognised?
    requires NormaliseVendor(vendors).id.JStr?
    ensures NormaliseVendor(vendors).id == JStr(VendorId(vendors))
  {
  }

  /** An object with a string id but no business_name shows an empty id while its
      `vendor_id` is that id. */
  lemma VendorIdWithoutBusinessName()
    ensures NormaliseVendor(JObj(map["id" := JStr("v1")])) == VendorInfo(JStr(""), "")
    ensures VendorId(JObj(map["id" := JStr("v1")])) == "v1"
  {
    var o := JObj(map["id" := JStr("v1")]);
    assert !HasKey(o, "business_name");
  }

  // ---------------------------------------------------------------------------
  // Stars

  function Repeat(c: char, n: nat): (s: string)
    ensures |s| == n && forall i :: 0 <= i < n ==> s[i] == c
  {
    if n == 0 then "" else [c] + Repeat(c, n - 1)
  }

  const FullStar := '★'
  const EmptyStar := '☆'

  /** `'★'.repeat(r) + '☆'.repeat(5 - r)`: a negative count makes repeat throw. */
  function Stars(rating: int): Result<string>
  {
    if rating < 0 || 5 - rating < 0 then Err("RangeError: Invalid count value")
    else Ok(Repeat(FullStar, rating) + Repeat(EmptyStar, 5 - rating))
  }

  /** The number of full stars in a star string. */
  function FullStars(s: string): nat
  {
    if s == "" then 0 else (if s[0] == FullStar then 1 else 0) + FullStars(s[1..])
  }

  lemma {:induction false} FullStarsAppend(a: string, b: string)
    ensures FullStars(a + b) == FullStars(a) + FullStars(b)
  {
    if a != "" {
      assert (a + b)[1..] == a[1..] + b;
      FullStarsAppend(a[1..], b);
    } else {
      assert a + b == b;
    }
  }

  lemma {:induction false} FullStarsRepeat(c: char, n: nat)
    ensures FullStars(Repeat(c, n)) == if c == FullStar then n else 0
  {
    if n > 0 {
      assert Repeat(c, n)[1..] == Repeat(c, n - 1);
      FullStarsRepeat(c, n - 1);
    }
  }

  /** A rating in 0..5 shows as five characters: that many full stars, then empty ones,
      so the full stars read back as the rating. Any other rating throws. */
  lemma StarsShape(rating: int)
    ensures Stars(rating).Ok? <==> 0 <= rating <= 5
    ensures 0 <= rating <= 5 ==>
      && |Stars(rating).value| == 5
      && (forall i :: 0 <= i < rating ==> Stars(rating).value[i] == FullStar)
      && (forall i :: rating <= i < 5 ==> Stars(rating).value[i] == EmptyStar)
      && FullStars(Stars(rating).value) == rating
  {
    if 0 <= rating <= 5 {
      FullStarsAppend(Repeat(FullStar, rating), Repeat(EmptyStar, 5 - rating));
      FullStarsRepeat(FullStar, rating);
      FullStarsRepeat(EmptyStar, 5 - rating);
    }
  }

  // ---------------------------------------------------------------------------
  // The page

  /** The columns of a product row that the page keeps. */
  datatype ProductRow = ProductRow(id: string, name: string, price: int, imageUrl: string, vendors: JsValue)

  /** The `product` state: `vendor` is optional in the record's type. */
  datatype LoadedProduct = LoadedProduct(
    id: string, name: string, price: int, imageUrl: string,
    vendor: Option<VendorInfo>, vendorId: string)

  function Load(row: ProductRow): LoadedProduct
  {
    LoadedProduct(row.id, row.name, row.price, row.imageUrl,
                  Some(NormaliseVendor(row.vendors)), VendorId(row.vendors))
  }

  const UnknownVendor := "Unknown vendor"

  /** The vendor written on a cart line: `product.vendor_id || vendorName`, where the
      name defaults to "Unknown vendor" for a product without a vendor record. */
  function LineVendor(p: LoadedProduct): string
  {
    if p.vendorId != "" then p.vendorId
    else match p.vendor
      case None => UnknownVendor
      case Some(v) => v.name
  }

  /** The item handed to addToCart. */
  function LineFor(p: LoadedProduct, selectedColor: Option<string>): CartContext.NewItem
  {
    CartContext.NewItem(p.id, p.name, p.price, p.imageUrl, LineVendor(p),
      Some(match selectedColor case None => [] case Some(c) => if c == "" then [] else [c]))
  }

  /** A product loaded from a row always has a vendor record, so the "Unknown vendor"
      default never reaches a cart line: the line names the vendor id when there is one
      and the normalised display name otherwise. */
  lemma LoadedLineVendor(row: ProductRow)
    ensures VendorId(row.vendors) != "" ==> LineVendor(Load(row)) == VendorId(row.vendors)
    ensures VendorId(row.vendors) == "" ==> LineVendor(Load(row)) == NormaliseVendor(row.vendors).name
  {
  }

  /** A line carries the selected colour as a one-element list, or an empty list. */
  lemma LineColors(p: LoadedProduct, selectedColor: Option<string>)
    ensures LineFor(p, selectedColor).colors.Some?
    ensures selectedColor.Some? && selectedColor.value != "" ==> LineFor(p, selectedColor).colors.value == [selectedColor.value]
    ensures selectedColor.None? || selectedColor.value == "" ==> LineFor(p, selectedColor).colors.value == []
  {
  }

  const RatingAlert := "Please select a rating between 1 and 5 stars"
  const LoginAlert := "Failed: You must be logged in."
  const ReviewFailedAlert := "Failed to submit review: "

  datatype ReviewRow = ReviewRow(productId: string, rating: int, comment: string, userId: string)

  class ProductDetailPage {
    const store: CartContext.CartProvider
    /** The id in the route. */
    const productId: string
    var product: Option<LoadedProduct>
    var quantity: int
    var selectedColor: Option<string>
    var rating: int
    var comment: string
    var alerts: seq<string>

    /** The stepper never shows less than 1. */
    ghost predicate Valid()
      reads this
    {
      quantity >= 1
    }

    constructor (store: CartContext.CartProvider, productId: string)
      ensures this.store == store && this.productId == productId
      ensures product == None && quantity == 1 && selectedColor == None
      ensures rating == 0 && comment == "" && alerts == []
      ensures Valid()
    {
      this.store := store;
      this.productId := productId;
      product := None;
      quantity := 1;
      selectedColor := None;
      rating := 0;
      comment := "";
      alerts := [];
    }

    method ProductFetched(row: ProductRow)
      requires Valid()
      modifies this`product
      ensures Valid()
      ensures product == Some(Load(row))
    {
      product := Some(Load(row));
    }

    /** The "-" button: `Math.max(1, quantity - 1)`. */
    method Decrement()
      requires Valid()
      modifies this`quantity
      ensures Valid()
      ensures quantity == if old(quantity) > 1 then old(quantity) - 1 else 1
    {
      quantity := if quantity - 1 > 1 then quantity - 1 else 1;
    }

    /** The "+" button. */
    method Increment()
      requires Valid()
      modifies this`quantity
      ensures Valid()
      ensures quantity == old(quantity) + 1
    {
      quantity := quantity + 1;
    }

    method SelectColor(color: string)
      requires Valid()
      modifies this`selectedColor
      ensures Valid()
      ensures selectedColor == Some(color)
    {
      selectedColor := Some(color);
    }

    method SetRating(r: int)
      requires Valid()
      modifies this`rating
      ensures Valid()
      ensures rating == r
    {
      rating := r;
    }

    method SetComment(c: string)
      requires Valid()
      modifies this`comment
      ensures Valid()
      ensures comment == c
    {
      comment := c;
    }

    /** Add to Cart: without a product nothing happens; otherwise addToCart is called
        `quantity` times with the same item, so the cart is that item added `quantity`
        times. */
    method HandleAddToCart()
      requires Valid()
      modifies store
      ensures product.None? ==> store.cart == old(store.cart) && store.saved == old(store.saved)
      ensures product.Some? ==>
        store.cart == CartContext.AddedTimes(old(store.cart), LineFor(product.value, selectedColor), quantity)
        && store.Persisted()
    {
      if product.None? {
        return;
      }
      var item := LineFor(product.value, selectedColor);
      ghost var start := store.cart;
      for i := 0 to quantity
        invariant store.cart == CartContext.AddedTimes(start, item, i)
        invariant i >= 1 ==> store.Persisted()
      {
        store.AddToCart(item);
      }
    }

    /** The review form. A rating outside 1..5 is refused before any call; a failed or
        missing login stops before the insert; a failed insert (`insertError` is its
        message) keeps the form; a stored review resets rating and comment and reloads
        the reviews. */
    method SubmitReview(user: Option<string>, insertError: Option<string>) returns (requests: seq<Request>, sent: Option<ReviewRow>)
      requires Valid()
      modifies this`rating, this`comment, this`alerts
      ensures Valid()
      ensures old(rating) < 1 || old(rating) > 5 ==>
        requests == [] && sent == None && alerts == old(alerts) + [RatingAlert]
        && rating == old(rating) && comment == old(comment)
      ensures 1 <= old(rating) <= 5 && user.None? ==>
        requests == [GetUser] && sent == None && alerts == old(alerts) + [LoginAlert]
        && rating == old(rating) && comment == old(comment)
      ensures 1 <= old(rating) <= 5 && user.Some? ==>
        sent == Some(ReviewRow(productId, old(rating), old(comment), user.value))
      ensures 1 <= old(rating) <= 5 && user.Some? && insertError.Some? ==>
        requests == [GetUser, Insert("reviews")] && alerts == old(alerts) + [ReviewFailedAlert + insertError.value]
        && rating == old(rating) && comment == old(comment)
      ensures 1 <= old(rating) <= 5 && user.Some? && insertError.None? ==>
        requests == [GetUser, Insert("reviews"), Select("reviews")] && alerts == old(alerts)
        && rating == 0 && comment == ""
    {
      requests := [];
      sent := None;
      if rating < 1 || rating > 5 {
        alerts := alerts + [RatingAlert];
        return;
      }
      requests := requests + [GetUser];
      if user.None? {
        alerts := alerts + [LoginAlert];
        return;
      }
      sent := Some(ReviewRow(productId, rating, comment, user.value));
      requests := requests + [Insert("reviews")];
      if insertError.Some? {
        alerts := alerts + [ReviewFailedAlert + insertError.value];
        return;
      }
      rating := 0;
      comment := "";
      requests := requests + [Select("reviews")];
    }
  }
}

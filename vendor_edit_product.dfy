/** The vendor's product editor (src/pages/vendor/VendorEditProduct.tsx): the colour
    list with its hex check, the subcategory list that follows the chosen category, the
    product form's schema, the image being shown or removed, and the gate that only lets
    an approved vendor see the form. The file's own CATEGORIES table is the same as the
    shared one in src/types/index.ts, so Types.Categories stands for both. */
module VendorEditProduct {
  import opened Common
  import opened Types

  // ---------------------------------------------------------------------------
  // Colours

  predicate IsHexDigit(c: char)
  {
    '0' <= c <= '9' || 'a' <= c <= 'f' || 'A' <= c <= 'F'
  }

  /** `/^#[0-9A-Fa-f]{6}$/`: a '#' followed by exactly six hexadecimal digits. */
  predicate IsHexColor(s: string)
  {
    |s| == 7 && s[0] == '#' && forall i :: 1 <= i < 7 ==> IsHexDigit(s[i])
  }

  const InvalidColorError := "Please enter a valid hex color (e.g. #1B3A5F)"
  const DuplicateColorError := "Color already added"
  const InitialColor := "#1B3A5F"

  /** The colour list and the colour error after an edit. */
  datatype ColorState = ColorState(colors: seq<string>, error: string)

  /** addColor: an invalid colour or one already in the list only sets the error;
      otherwise the colour is appended and the error cleared. */
  function AddColorTo(s: ColorState, candidate: string): ColorState
  {
    if !IsHexColor(candidate) then s.(error := InvalidColorError)
    else if candidate in s.colors then s.(error := DuplicateColorError)
    else ColorState(s.colors + [candidate], "")
  }

  /** removeColor: `colors.filter((c) => c !== color)`. */
  function WithoutColor(colors: seq<string>, color: string): seq<string>
  {
    Filter(colors, (c: string) => c != color)
  }

  /** The colour list only ever grows by a valid colour that was not in it yet: a
      rejected colour leaves the list as it was, an accepted one lands at the end, and a
      duplicate-free list stays duplicate-free. */
  lemma AddColorCases(s: ColorState, candidate: string)
    ensures !IsHexColor(candidate) ==> AddColorTo(s, candidate) == s.(error := InvalidColorError)
    ensures IsHexColor(candidate) && candidate in s.colors ==>
      AddColorTo(s, candidate) == s.(error := DuplicateColorError)
    ensures AddColorTo(s, candidate).colors != s.colors <==> IsHexColor(candidate) && candidate !in s.colors
    ensures AddColorTo(s, candidate).colors != s.colors ==>
      AddColorTo(s, candidate) == ColorState(s.colors + [candidate], "")
    ensures NoDuplicates(s.colors) ==> NoDuplicates(AddColorTo(s, candidate).colors)
    ensures (forall i :: 0 <= i < |s.colors| ==> IsHexColor(s.colors[i])) ==>
      forall i :: 0 <= i < |AddColorTo(s, candidate).colors| ==> IsHexColor(AddColorTo(s, candidate).colors[i])
  {
    var r := AddColorTo(s, candidate);
    if IsHexColor(candidate) && candidate !in s.colors {
      assert |r.colors| == |s.colors| + 1;
    }
  }

  /** The colour-matching check is case-sensitive: the same colour in other letter case
      is accepted again. */
  lemma DuplicateCheckIsCaseSensitive()
    ensures AddColorTo(ColorState(["#1b3a5f"], ""), InitialColor) == ColorState(["#1b3a5f", InitialColor], "")
  {
    assert InitialColor != "#1b3a5f" by { assert InitialColor[2] != "#1b3a5f"[2]; }
  }

  /** removeColor deletes every occurrence of the colour, keeps every occurrence of the
      other colours in their order, and changes nothing when the colour is absent. */
  lemma RemoveColorSpec(colors: seq<string>, color: string)
    ensures color !in WithoutColor(colors, color)
    ensures IsSubsequence(WithoutColor(colors, color), colors)
    ensures forall i :: 0 <= i < |colors| && colors[i] != color ==> colors[i] in WithoutColor(colors, color)
    ensures forall c :: multiset(WithoutColor(colors, color))[c] == if c != color then multiset(colors)[c] else 0
    ensures color !in colors ==> WithoutColor(colors, color) == colors
  {
    var keep := (c: string) => c != color;
    FilterSpec(colors, keep);
    if color !in colors {
      FilterKeepsAll(colors, keep);
    }
  }

  // ---------------------------------------------------------------------------
  // Subcategories

  /** The effect on the watched category: no category empties the list; a known
      category shows its row; an unknown one leaves the list as it was. */
  function SubcategoriesAfter(table: seq<CategoryEntry>, current: seq<string>, category: string): seq<string>
  {
    if category == "" then []
    else match FindIn(table, category)
      case None => current
      case Some(entry) => entry.subcategories
  }

  /** The effect on any table whose names are distinct and not empty and whose rows all
      offer subcategories. */
  lemma SubcategoriesAfterSpec(table: seq<CategoryEntry>, current: seq<string>, category: string)
    requires forall i, j :: 0 <= i < j < |table| ==> table[i].name != table[j].name
    requires forall i :: 0 <= i < |table| ==> table[i].name != "" && table[i].subcategories != []
    ensures category == "" ==> SubcategoriesAfter(table, current, category) == []
    ensures category != "" && FindIn(table, category).None? ==> SubcategoriesAfter(table, current, category) == current
    ensures forall i :: 0 <= i < |table| && table[i].name == category ==>
      SubcategoriesAfter(table, current, category) == table[i].subcategories
    ensures category != "" && FindIn(table, category).Some? ==> SubcategoriesAfter(table, current, category) != []
  {
    forall i | 0 <= i < |table| && table[i].name == category
      ensures SubcategoriesAfter(table, current, category) == table[i].subcategories
    {
      FindInAt(table, category, i);
    }
  }

  /** For the category table: no category empties the list, an unknown one keeps it, a
      known one shows its own row, which is never empty. */
  lemma SubcategoryEffect(current: seq<string>, category: string)
    ensures category == "" ==> SubcategoriesAfter(Categories(), current, category) == []
    ensures category != "" && FindCategory(category).None? ==>
      SubcategoriesAfter(Categories(), current, category) == current
    ensures forall i :: 0 <= i < |Categories()| && Categories()[i].name == category ==>
      SubcategoriesAfter(Categories(), current, category) == Categories()[i].subcategories
    ensures category != "" && FindCategory(category).Some? ==> SubcategoriesAfter(Categories(), current, category) != []
  {
    CategoryNamesDistinct();
    SubcategoryListsWellFormed();
    SubcategoriesAfterSpec(Categories(), current, category);
  }

  // ---------------------------------------------------------------------------
  // Schema

  datatype ProductForm = ProductForm(
    name: string,
    description: string,
    price: int,
    stock: int,
    location: string,
    category: string,
    subcategory: string)

  datatype SchemaIssue =
    | NameTooShort
    | DescriptionTooShort
    | PriceTooLow
    | NegativeStock
    | LocationMissing
    | CategoryMissing
    | SubcategoryMissing

  function IssueMessage(issue: SchemaIssue): string
  {
    match issue
    case NameTooShort => "Product name must be at least 3 characters"
    case DescriptionTooShort => "Description must be at least 10 characters"
    case PriceTooLow => "Price must be greater than 0"
    case NegativeStock => "Stock cannot be negative"
    case LocationMissing => "Location is required"
    case CategoryMissing => "Category is required"
    case SubcategoryMissing => "Subcategory is required"
  }

  /** The rule each issue stands for holds on the form. */
  predicate Satisfies(f: ProductForm, issue: SchemaIssue)
  {
    match issue
    case NameTooShort => |f.name| >= 3
    case DescriptionTooShort => |f.description| >= 10
    case PriceTooLow => f.price >= 1
    case NegativeStock => f.stock >= 0
    case LocationMissing => |f.location| >= 1
    case CategoryMissing => |f.category| >= 1
    case SubcategoryMissing => |f.subcategory| >= 1
  }

  function Check(f: ProductForm, issue: SchemaIssue): seq<SchemaIssue>
  {
    if Satisfies(f, issue) then [] else [issue]
  }

  /** productSchema: the failed rules, in the order the schema declares them. */
  function Issues(f: ProductForm): seq<SchemaIssue>
  {
    Check(f, NameTooShort) + Check(f, DescriptionTooShort) + Check(f, PriceTooLow)
      + Check(f, NegativeStock) + Check(f, LocationMissing) + Check(f, CategoryMissing)
      + Check(f, SubcategoryMissing)
  }

  /** A rule is reported exactly when it fails, so the form passes exactly when name has
      at least 3 characters, description at least 10, price is at least 1, stock is not
      negative, and location, category and subcategory are not empty. */
  lemma IssuesAreFailedRules(f: ProductForm)
    ensures forall issue :: issue in Issues(f) <==> !Satisfies(f, issue)
    ensures Issues(f) == [] <==>
      |f.name| >= 3 && |f.description| >= 10 && f.price >= 1 && f.stock >= 0
      && f.location != "" && f.category != "" && f.subcategory != ""
  {
    forall issue
      ensures issue in Issues(f) <==> !Satisfies(f, issue)
    {
      assert issue in Check(f, issue) <==> !Satisfies(f, issue);
    }
    if Issues(f) == [] {
      assert forall issue :: Satisfies(f, issue);
      assert Satisfies(f, NameTooShort) && Satisfies(f, DescriptionTooShort) && Satisfies(f, PriceTooLow);
      assert Satisfies(f, NegativeStock) && Satisfies(f, LocationMissing);
      assert Satisfies(f, CategoryMissing) && Satisfies(f, SubcategoryMissing);
    }
  }

  // ---------------------------------------------------------------------------
  // The page

  datatype Screen =
    | Loading
    | ProductNotFound
    | AccessRestricted(message: string)
    | EditForm

  /** The early returns of the page, in order: loading, not found, and the status gate. */
  function ScreenFor(isLoading: bool, productNotFound: bool, status: VendorStatus): Screen
  {
    if isLoading then Loading
    else if productNotFound then ProductNotFound
    else if status != Approved then
      AccessRestricted(if status == Pending then "Your vendor account is still under review."
                       else "Your vendor account has been rejected. Please contact support.")
    else EditForm
  }

  /** The form is shown exactly when loading is over, the product was found and the
      vendor is approved; a pending and a rejected vendor get different messages. */
  lemma FormOnlyForApproved(isLoading: bool, productNotFound: bool, status: VendorStatus)
    ensures ScreenFor(isLoading, productNotFound, status) == EditForm <==>
      !isLoading && !productNotFound && status == Approved
    ensures !isLoading && !productNotFound && status != Approved ==>
      ScreenFor(isLoading, productNotFound, Pending) != ScreenFor(isLoading, productNotFound, Rejected)
  {
  }

  /** A chosen image file. */
  datatype ImageFile = ImageFile(name: string)

  /** A `products` row as the editor reads it; colours and image URL may be null. */
  datatype ProductRow = ProductRow(
    name: string,
    description: string,
    price: int,
    stock: int,
    location: string,
    category: string,
    subcategory: string,
    colors: Option<seq<string>>,
    imageUrl: Option<string>)

  /** The signed-in user's `vendors` row. */
  datatype VendorRow = VendorRow(id: string, status: VendorStatus)

  /** The update sent on save; `updatedAt` is the ISO time stamp of the save. */
  datatype ProductUpdate = ProductUpdate(form: ProductForm, colors: seq<string>, imageUrl: Option<string>, updatedAt: string)

  const ImageBucket := "product-images"
  const LoginRoute := "/vendor/login"
  const ProductsRoute := "/vendor/products"
  const UpdatedAlert := "Product updated successfully"
  const UpdateFailedAlert := "Failed to update product"

  /** The storage name `products/<timestamp>.<extension>`. */
  function ImagePath(stamp: string, file: ImageFile): string
  {
    "products/" + stamp + "." + AfterLastDot(file.name)
  }

  class EditProductPage {
    const productId: string
    /** The page's own copy of the category table, identical to the shared one. */
    const categories: seq<CategoryEntry>
    var isLoading: bool
    var productNotFound: bool
    var isSubmitting: bool
    var form: ProductForm
    var colors: seq<string>
    var currentColor: string
    var colorError: string
    var availableSubcategories: seq<string>
    var imageFile: Option<ImageFile>
    var imagePreview: Option<string>
    var existingImageUrl: Option<string>
    var vendorStatus: VendorStatus
    var alerts: seq<string>
    var navigations: seq<string>

    /** The status starts as approved, before the vendor row is known. */
    constructor (productId: string)
      ensures this.productId == productId && categories == Categories() && isLoading && !productNotFound && !isSubmitting
      ensures form == ProductForm("", "", 0, 0, "", "", "")
      ensures colors == [] && currentColor == InitialColor && colorError == ""
      ensures availableSubcategories == []
      ensures imageFile == None && imagePreview == None && existingImageUrl == None
      ensures vendorStatus == Approved && alerts == [] && navigations == []
    {
      this.productId := productId;
      categories := Categories();
      isLoading := true;
      productNotFound := false;
      isSubmitting := false;
      form := ProductForm("", "", 0, 0, "", "", "");
      colors := [];
      currentColor := InitialColor;
      colorError := "";
      availableSubcategories := [];
      imageFile := None;
      imagePreview := None;
      existingImageUrl := None;
      vendorStatus := Approved;
      alerts := [];
      navigations := [];
    }

    /** What the page renders now. */
    function CurrentScreen(): Screen
      reads this
    {
      ScreenFor(isLoading, productNotFound, vendorStatus)
    }

    /** fetchProduct. `user` is the signed-in user's id, `vendor` the user's `vendors`
        row and `product` the product row owned by that vendor (None when a select fails
        or finds nothing). Without a user the page navigates to the login; without a
        vendor or a product it shows "not found"; otherwise the vendor's status is kept
        and the form, the subcategories, the colours and the existing image come from the
        row. Loading ends in every case. */
    method FetchProduct(user: Option<string>, vendor: Option<VendorRow>, product: Option<ProductRow>)
      returns (requests: seq<Request>)
      modifies this`isLoading, this`productNotFound, this`vendorStatus, this`form, this`availableSubcategories,
               this`colors, this`existingImageUrl, this`navigations
      ensures !isLoading && navigations == old(navigations) + (if user.None? then [LoginRoute] else [])
      ensures user.None? ==>
        requests == [GetUser] && productNotFound == old(productNotFound) && vendorStatus == old(vendorStatus)
        && form == old(form) && colors == old(colors) && existingImageUrl == old(existingImageUrl)
      ensures user.Some? && vendor.None? ==>
        requests == [GetUser, Select("vendors")] && productNotFound && vendorStatus == old(vendorStatus)
        && form == old(form) && colors == old(colors) && existingImageUrl == old(existingImageUrl)
      ensures user.Some? && vendor.Some? ==>
        requests == [GetUser, Select("vendors"), Select("products")] && vendorStatus == vendor.value.status
      ensures user.Some? && vendor.Some? && product.None? ==>
        productNotFound && form == old(form) && colors == old(colors) && existingImageUrl == old(existingImageUrl)
      ensures user.Some? && vendor.Some? && product.Some? ==>
        var row := product.value;
        && productNotFound == old(productNotFound)
        && form == ProductForm(row.name, row.description, row.price, row.stock, row.location, row.category,
                               row.subcategory)
        && availableSubcategories ==
             (if FindIn(categories, row.category).Some? then FindIn(categories, row.category).value.subcategories
              else old(availableSubcategories))
        && colors == (if row.colors.Some? then row.colors.value else [])
        && existingImageUrl == (if row.imageUrl.Some? && row.imageUrl.value != "" then row.imageUrl else None)
    {
      requests := [GetUser];
      if user.None? {
        navigations := navigations + [LoginRoute];
        isLoading := false;
        return;
      }
      requests := requests + [Select("vendors")];
      if vendor.None? {
        productNotFound := true;
        isLoading := false;
        return;
      }
      vendorStatus := vendor.value.status;
      requests := requests + [Select("products")];
      if product.None? {
        productNotFound := true;
        isLoading := false;
        return;
      }
      var row := product.value;
      form := ProductForm(row.name, row.description, row.price, row.stock, row.location, row.category,
                          row.subcategory);
      var category := FindIn(categories, row.category);
      if category.Some? {
        availableSubcategories := category.value.subcategories;
      }
      colors := if row.colors.Some? then row.colors.value else [];
      existingImageUrl := if row.imageUrl.Some? && row.imageUrl.value != "" then row.imageUrl else None;
      isLoading := false;
    }

    method SetCurrentColor(value: string)
      modifies this`currentColor
      ensures currentColor == value
    {
      currentColor := value;
    }

    method AddColor()
      modifies this`colors, this`colorError
      ensures ColorState(colors, colorError) == AddColorTo(old(ColorState(colors, colorError)), currentColor)
    {
      if !IsHexColor(currentColor) {
        colorError := InvalidColorError;
        return;
      }
      if currentColor in colors {
        colorError := DuplicateColorError;
        return;
      }
      colors := colors + [currentColor];
      colorError := "";
    }

    method RemoveColor(color: string)
      modifies this`colors
      ensures colors == WithoutColor(old(colors), color)
    {
      colors := WithoutColor(colors, color);
    }

    method CategoryChanged(category: string)
      modifies this`availableSubcategories
      ensures availableSubcategories == SubcategoriesAfter(categories, old(availableSubcategories), category)
    {
      if category != "" {
        var entry := FindIn(categories, category);
        if entry.Some? {
          availableSubcategories := entry.value.subcategories;
        }
      } else {
        availableSubcategories := [];
      }
    }

    /** displayImage: `imagePreview || existingImageUrl`. */
    function DisplayImage(): (shown: Option<string>)
      reads this
      ensures imagePreview.Some? && imagePreview.value != "" ==> shown == imagePreview
      ensures (imagePreview.None? || imagePreview.value == "") ==> shown == existingImageUrl
    {
      if imagePreview.Some? && imagePreview.value != "" then imagePreview else existingImageUrl
    }

    /** removeImage: file, preview and existing URL are all cleared, so nothing is shown. */
    method RemoveImage()
      modifies this`imageFile, this`imagePreview, this`existingImageUrl
      ensures imageFile == None && imagePreview == None && existingImageUrl == None
      ensures DisplayImage() == None
    {
      imageFile := None;
      imagePreview := None;
      existingImageUrl := None;
    }

    /** handleImageChange: a chosen file replaces file and preview; no file changes nothing.
        The preview URL comes from the browser and is a parameter. */
    method ImageChange(file: Option<ImageFile>, previewUrl: string)
      modifies this`imageFile, this`imagePreview
      ensures file.Some? ==> imageFile == file && imagePreview == Some(previewUrl)
      ensures file.None? ==> imageFile == old(imageFile) && imagePreview == old(imagePreview)
    {
      if file.Some? {
        imageFile := file;
        imagePreview := Some(previewUrl);
      }
    }
    /** onSubmit, run with form data that passed the schema. `stamp` is the upload's
        timestamp, `upload` the new image's public URL, or the upload's error, and `now`
        the ISO time of the update. A new image is uploaded first and replaces the existing
        URL; the update carries the form, the colour list, the image URL and `now`. */
    method OnSubmit(data: ProductForm, stamp: string, upload: Result<string>, now: string, updateOutcome: Outcome)
      returns (requests: seq<Request>, sent: Option<ProductUpdate>)
      modifies this`isSubmitting, this`alerts, this`navigations
      ensures !isSubmitting
      ensures imageFile.Some? && upload.Err? ==>
        requests == [Upload(ImageBucket, ImagePath(stamp, imageFile.value))] && sent == None
        && alerts == old(alerts) + [UpdateFailedAlert] && navigations == old(navigations)
      ensures imageFile.Some? && upload.Ok? ==>
        requests == [Upload(ImageBucket, ImagePath(stamp, imageFile.value)), Update("products", productId)]
        && sent == Some(ProductUpdate(data, colors, Some(upload.value), now))
      ensures imageFile.None? ==>
        requests == [Update("products", productId)] && sent == Some(ProductUpdate(data, colors, existingImageUrl, now))
      ensures imageFile.None? || upload.Ok? ==>
        && (updateOutcome == Succeeded ==>
              alerts == old(alerts) + [UpdatedAlert] && navigations == old(navigations) + [ProductsRoute])
        && (updateOutcome == Failed ==>
              alerts == old(alerts) + [UpdateFailedAlert] && navigations == old(navigations))
    {
      isSubmitting := true;
      requests := [];
      sent := None;
      var imageUrl := existingImageUrl;
      if imageFile.Some? {
        var path := ImagePath(stamp, imageFile.value);
        requests := [Upload(ImageBucket, path)];
        if upload.Err? {
          alerts := alerts + [UpdateFailedAlert];
          isSubmitting := false;
          return;
        }
        imageUrl := Some(upload.value);
      }
      sent := Some(ProductUpdate(data, colors, imageUrl, now));
      requests := requests + [Update("products", productId)];
      if updateOutcome == Succeeded {
        alerts := alerts + [UpdatedAlert];
        navigations := navigations + [ProductsRoute];
      } else {
        alerts := alerts + [UpdateFailedAlert];
      }
      isSubmitting := false;
    }
  }
}

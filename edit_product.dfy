/** The admin's product editor (src/pages/admin/EditProduct.tsx): the form is filled
    from the fetched row with missing texts as '', edited through the shared change
    handler, and saved with one update. */
module EditProduct {
  import opened Common
  import opened AdminProductForm

  /** A `products` row as the editor reads it; description, subcategory and image URL
      may be null. */
  datatype ProductRow = ProductRow(
    name: string,
    description: Option<string>,
    price: int,
    category: string,
    subcategory: Option<string>,
    vendor: string,
    imageUrl: Option<string>,
    stock: int)

  /** `value || ''` for a nullable text. */
  function OrBlank(value: Option<string>): string
  {
    if value.Some? then value.value else ""
  }

  const EmptyForm: Form := map[
    "name" := "", "description" := "", "price" := "", "category" := "",
    "subcategory" := "", "vendor" := "", "image_url" := "", "stock" := ""]

  /** The form filled from a row. `numberText` is the number's `toString`. */
  function FormFromRow(row: ProductRow, numberText: int -> string): (form: Form)
    ensures form.Keys == EmptyForm.Keys
  {
    map[
      "name" := row.name,
      "description" := OrBlank(row.description),
      "price" := numberText(row.price),
      "category" := row.category,
      "subcategory" := OrBlank(row.subcategory),
      "vendor" := row.vendor,
      "image_url" := OrBlank(row.imageUrl),
      "stock" := numberText(row.stock)]
  }

  /** Null description, subcategory and image URL become ''; present ones, and the other
      fields, are copied; price and stock become their text. */
  lemma FormFromRowFields(row: ProductRow, numberText: int -> string)
    ensures row.description.None? ==> FormFromRow(row, numberText)["description"] == ""
    ensures row.subcategory.None? ==> FormFromRow(row, numberText)["subcategory"] == ""
    ensures row.imageUrl.None? ==> FormFromRow(row, numberText)["image_url"] == ""
    ensures row.description.Some? ==> FormFromRow(row, numberText)["description"] == row.description.value
    ensures row.subcategory.Some? ==> FormFromRow(row, numberText)["subcategory"] == row.subcategory.value
    ensures row.imageUrl.Some? ==> FormFromRow(row, numberText)["image_url"] == row.imageUrl.value
    ensures FormFromRow(row, numberText)["name"] == row.name
    ensures FormFromRow(row, numberText)["category"] == row.category
    ensures FormFromRow(row, numberText)["vendor"] == row.vendor
    ensures FormFromRow(row, numberText)["price"] == numberText(row.price)
    ensures FormFromRow(row, numberText)["stock"] == numberText(row.stock)
  {
  }

  /** The update sent on save; price and stock are still the texts handed to
      parseFloat and parseInt, and `updatedAt` is the ISO time stamp of the save. */
  datatype ProductUpdate = ProductUpdate(
    name: string,
    description: string,
    priceText: string,
    category: string,
    subcategory: string,
    vendor: string,
    imageUrl: string,
    stockText: string,
    updatedAt: string)

  const AdminRoute := "/admin"
  const LoadFailedAlert := "Failed to load product"
  const UpdatedAlert := "Product updated successfully!"
  const UpdateFailedAlert := "Failed to update product"

  class EditProductPage {
    const id: string
    var formData: Form
    var loading: bool
    var saving: bool
    var alerts: seq<string>
    var navigations: seq<string>

    /** Every field of the form exists. */
    ghost predicate Valid()
      reads this
    {
      EmptyForm.Keys <= formData.Keys
    }

    constructor (id: string)
      ensures Valid()
      ensures this.id == id && formData == EmptyForm && loading && !saving && alerts == [] && navigations == []
    {
      this.id := id;
      formData := EmptyForm;
      loading := true;
      saving := false;
      alerts := [];
      navigations := [];
    }

    /** fetchProduct. `row` is None when the select fails: an alert and a move back to
        the dashboard; otherwise the form is filled from the row. Loading ends either way. */
    method FetchProduct(row: Option<ProductRow>, numberText: int -> string) returns (requests: seq<Request>)
      requires Valid()
      modifies this`formData, this`loading, this`alerts, this`navigations
      ensures Valid()
      ensures requests == [Select("products")] && !loading
      ensures row.None? ==>
        formData == old(formData) && alerts == old(alerts) + [LoadFailedAlert]
        && navigations == old(navigations) + [AdminRoute]
      ensures row.Some? ==>
        formData == FormFromRow(row.value, numberText) && alerts == old(alerts) && navigations == old(navigations)
    {
      requests := [Select("products")];
      if row.None? {
        alerts := alerts + [LoadFailedAlert];
        navigations := navigations + [AdminRoute];
      } else {
        formData := FormFromRow(row.value, numberText);
      }
      loading := false;
    }

    method HandleChange(name: string, value: string)
      requires Valid()
      modifies this`formData
      ensures Valid()
      ensures formData == Changed(old(formData), name, value)
    {
      formData := Changed(formData, name, value);
    }

    /** The current choices for the subcategory select. */
    function Subcategories(): seq<string>
      reads this
    {
      Types.SubcategoriesOf(if "category" in formData then formData["category"] else "")
    }

    /** handleSubmit: one update carrying the form's texts and `now`, the ISO time of the
        save; success shows a notice and returns to the dashboard, failure only alerts. */
    method HandleSubmit(now: string, updateOutcome: Outcome) returns (requests: seq<Request>, sent: ProductUpdate)
      requires Valid()
      modifies this`saving, this`alerts, this`navigations
      ensures !saving && requests == [Update("products", id)]
      ensures sent == ProductUpdate(formData["name"], formData["description"], formData["price"],
        formData["category"], formData["subcategory"], formData["vendor"], formData["image_url"],
        formData["stock"], now)
      ensures updateOutcome == Succeeded ==>
        alerts == old(alerts) + [UpdatedAlert] && navigations == old(navigations) + [AdminRoute]
      ensures updateOutcome == Failed ==>
        alerts == old(alerts) + [UpdateFailedAlert] && navigations == old(navigations)
    {
      saving := true;
      sent := ProductUpdate(formData["name"], formData["description"], formData["price"],
        formData["category"], formData["subcategory"], formData["vendor"], formData["image_url"],
        formData["stock"], now);
      requests := [Update("products", id)];
      if updateOutcome == Succeeded {
        alerts := alerts + [UpdatedAlert];
        navigations := navigations + [AdminRoute];
      } else {
        alerts := alerts + [UpdateFailedAlert];
      }
      saving := false;
    }
  }
}

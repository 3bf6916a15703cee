/** The admin's product creator (src/pages/admin/AddProduct.tsx): an initial form with
    a default stock of 100, the shared change handler, and a submit that uploads the
    chosen image, if any, and inserts the product with '' and '0' standing in for
    missing values. */
module AddProduct {
  import opened Common
  import opened AdminProductForm

  /** The initial form: every field empty except a stock of "100". */
  const InitialForm: Form := map[
    "name" := "", "description" := "", "price" := "", "category" := "",
    "subcategory" := "", "vendor" := "", "stock" := "100"]

  /** Every initial field is '' except stock, which is "100"; there is no image URL
      field. */
  lemma InitialFormFields()
    ensures forall k :: k in InitialForm && k != "stock" ==> InitialForm[k] == ""
    ensures InitialForm["stock"] == "100"
    ensures |InitialForm.Keys| == 7 && "image_url" !in InitialForm
  {
    assert InitialForm.Keys == {"name", "description", "price", "category", "subcategory", "vendor", "stock"};
  }

  /** `text || '0'`: an empty number text reads as "0". */
  function OrZero(text: string): (r: string)
    ensures r != ""
    ensures text != "" ==> r == text
  {
    if text == "" then "0" else text
  }

  datatype ImageFile = ImageFile(name: string)

  /** The inserted product; price and stock are the texts handed to parseFloat and
      parseInt. */
  datatype ProductInsert = ProductInsert(
    name: string,
    description: string,
    priceText: string,
    category: string,
    subcategory: string,
    vendor: string,
    imageUrl: string,
    stockText: string)

  const ImageBucket := "product-images"
  const AdminRoute := "/admin"
  const AddedAlert := " Product added successfully!"
  const FailedPrefix := "Failed to add product: "

  /** The storage name `<timestamp>-<file name>`. */
  function ImagePath(stamp: string, file: ImageFile): string
  {
    stamp + "-" + file.name
  }

  class AddProductPage {
    var formData: Form
    var imageFile: Option<ImageFile>
    var loading: bool
    var uploading: bool
    var alerts: seq<string>
    var navigations: seq<string>

    /** Every field of the form exists. */
    ghost predicate Valid()
      reads this
    {
      InitialForm.Keys <= formData.Keys
    }

    constructor ()
      ensures Valid()
      ensures formData == InitialForm && imageFile == None && !loading && !uploading
      ensures alerts == [] && navigations == []
    {
      formData := InitialForm;
      imageFile := None;
      loading := false;
      uploading := false;
      alerts := [];
      navigations := [];
    }

    method HandleChange(name: string, value: string)
      requires Valid()
      modifies this`formData
      ensures Valid()
      ensures formData == Changed(old(formData), name, value)
    {
      formData := Changed(formData, name, value);
    }

    /** The current choices for the subcategory select. */
    function Subcategories(): seq<string>
      reads this
    {
      Types.SubcategoriesOf(if "category" in formData then formData["category"] else "")
    }

    /** handleImageChange: a chosen file replaces the previous one; none keeps it. */
    method HandleImageChange(file: Option<ImageFile>)
      modifies this`imageFile
      ensures imageFile == if file.Some? then file else old(imageFile)
    {
      if file.Some? {
        imageFile := file;
      }
    }

    /** handleSubmit. `stamp` is the upload's timestamp, `upload` the uploaded image's
        public URL or the upload's error text, `insertError` the insert's error text (None
        on success). An error text is the error's message, or its JSON text when it has
        none. Without a file no upload happens and the image URL is ''. */
    method HandleSubmit(stamp: string, upload: Result<string>, insertError: Option<string>)
      returns (requests: seq<Request>, sent: Option<ProductInsert>)
      requires Valid()
      modifies this`loading, this`uploading, this`alerts, this`navigations
      ensures !loading && !uploading
      ensures imageFile.Some? && upload.Err? ==>
        requests == [Upload(ImageBucket, ImagePath(stamp, imageFile.value))] && sent == None
        && alerts == old(alerts) + [FailedPrefix + upload.reason] && navigations == old(navigations)
      ensures imageFile.None? || upload.Ok? ==>
        && requests == (if imageFile.Some? then [Upload(ImageBucket, ImagePath(stamp, imageFile.value))] else [])
                       + [Insert("products")]
        && sent == Some(ProductInsert(formData["name"], formData["description"], OrZero(formData["price"]),
             formData["category"], formData["subcategory"], formData["vendor"],
             if imageFile.Some? then upload.value else "", OrZero(formData["stock"])))
        && (insertError.None? ==>
              alerts == old(alerts) + [AddedAlert] && navigations == old(navigations) + [AdminRoute])
        && (insertError.Some? ==>
              alerts == old(alerts) + [FailedPrefix + insertError.value]
              && navigations == old(navigations))
    {
      loading := true;
      requests := [];
      sent := None;
      var imageUrl := "";
      if imageFile.Some? {
        uploading := true;
        requests := [Upload(ImageBucket, ImagePath(stamp, imageFile.value))];
        if upload.Err? {
          alerts := alerts + [FailedPrefix + upload.reason];
          loading := false;
          uploading := false;
          return;
        }
        imageUrl := upload.value;
        uploading := false;
      }
      sent := Some(ProductInsert(formData["name"], formData["description"], OrZero(formData["price"]),
        formData["category"], formData["subcategory"], formData["vendor"], imageUrl, OrZero(formData["stock"])));
      requests := requests + [Insert("products")];
      if insertError.None? {
        alerts := alerts + [AddedAlert];
        navigations := navigations + [AdminRoute];
      } else {
        alerts := alerts + [FailedPrefix + insertError.value];
      }
      loading := false;
      uploading := false;
    }
  }
}

/** The product form shared by the admin's add and edit screens
    (src/pages/admin/AddProduct.tsx and src/pages/admin/EditProduct.tsx): the form is a
    record of text fields addressed by the input's `name`, a change sets that field, and
    a category change also clears the subcategory; the subcategory choices come from the
    CATEGORIES table. */
module AdminProductForm {
  import opened Types

  /** The form state: field name to its text. */
  type Form = map<string, string>

  /** handleChange on the input called `name`. */
  function Changed(form: Form, name: string, value: string): Form
  {
    if name == "category" then form[name := value]["subcategory" := ""]
    else form[name := value]
  }

  /** A change sets the named field, clears the subcategory when the category changed
      (and only then), adds no field but the named one, and leaves every other field as
      it was. Setting the subcategory itself does not touch the category. */
  lemma ChangedSpec(form: Form, name: string, value: string)
    ensures Changed(form, name, value).Keys ==
      form.Keys + {name} + (if name == "category" then {"subcategory"} else {})
    ensures name in Changed(form, name, value) && Changed(form, name, value)[name] == value
    ensures name == "category" ==> Changed(form, name, value)["subcategory"] == ""
    ensures forall k :: k in form && k != name && !(name == "category" && k == "subcategory") ==>
      Changed(form, name, value)[k] == form[k]
  {
  }

  /** A category change always leaves an empty subcategory, whatever the category. */
  lemma CategoryChangeClearsSubcategory(form: Form, category: string)
    ensures Changed(form, "category", category)["category"] == category
    ensures Changed(form, "category", category)["subcategory"] == ""
  {
  }

  /** The subcategory select is rendered only when the chosen category has choices. */
  predicate SelectorShown(category: string)
  {
    SubcategoriesOf(category) != []
  }

  /** Since every table row has subcategories, the select appears exactly for a known
      category name, and then offers that row's list. */
  lemma SelectorShownIffKnownCategory(category: string)
    ensures SelectorShown(category) <==> FindCategory(category).Some?
    ensures FindCategory(category).Some? ==> SubcategoriesOf(category) == FindCategory(category).value.subcategories
  {
    SubcategoryListsWellFormed();
    if FindCategory(category).Some? {
      var entry := FindCategory(category).value;
      var i :| 0 <= i < |Categories()| && Categories()[i] == entry;
      assert Categories()[i].name == category;
    }
  }
}

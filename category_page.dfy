/** A category page (src/pages/Category.tsx): the category named in the route is looked
    up in the table; its products can be narrowed to one subcategory. */
module CategoryPage {
  import opened Common
  import opened Types
  import opened ProductFilter

  function SubcategoryKey(p: Product): string { p.subcategory }

  /** The filter effect on [selectedSubcategory, products]. */
  function Shown(products: seq<Product>, selectedSubcategory: string): seq<Product>
  {
    Selected(products, selectedSubcategory, SubcategoryKey)
  }

  const NotFoundMessage := "Category not found."

  datatype CategoryView =
    | CategoryNotFound(message: string)
    | Page(subcategoryButtons: seq<string>, grid: GridView)

  /** The render: an unknown category name gives only the not-found message; a known
      one gives its subcategory buttons (the 'All' button comes first when there are
      any) and the grid of the shown products. */
  function View(categoryName: string, loading: bool, products: seq<Product>, selectedSubcategory: string)
    : CategoryView
  {
    match FindCategory(categoryName)
    case None => CategoryNotFound(NotFoundMessage)
    case Some(entry) => Page(entry.subcategories, GridOf(loading, Shown(products, selectedSubcategory)))
  }

  /** The not-found message appears exactly for a name outside the table; a known name
      shows its own subcategories, and the grid of the shown products. */
  lemma ViewCases(categoryName: string, loading: bool, products: seq<Product>, selectedSubcategory: string)
    ensures View(categoryName, loading, products, selectedSubcategory).CategoryNotFound? <==>
      forall i :: 0 <= i < |Categories()| ==> Categories()[i].name != categoryName
    ensures View(categoryName, loading, products, selectedSubcategory).Page? ==>
      && View(categoryName, loading, products, selectedSubcategory).subcategoryButtons == SubcategoriesOf(categoryName)
      && View(categoryName, loading, products, selectedSubcategory).grid
           == GridOf(loading, Shown(products, selectedSubcategory))
  {
    if FindCategory(categoryName).Some? {
      var entry := FindCategory(categoryName).value;
      var i :| 0 <= i < |Categories()| && Categories()[i] == entry;
      assert Categories()[i].name == categoryName;
    }
  }

  /** The page starts on 'All' and then shows every fetched product. */
  lemma InitialSelectionShowsAll(products: seq<Product>)
    ensures Shown(products, AllSentinel) == products
  {
    SelectedSpec(products, AllSentinel, SubcategoryKey);
  }

  /** Any other selection shows exactly the products with that subcategory, each as
      often as fetched and in order;
      in particular a subcategory button of a table category, never called 'All'. */
  lemma SubcategoryButtonShowsThatSubcategory(products: seq<Product>, selected: string)
    requires selected != AllSentinel
    ensures IsSubsequence(Shown(products, selected), products)
    ensures forall i :: 0 <= i < |Shown(products, selected)| ==> Shown(products, selected)[i].subcategory == selected
    ensures forall i :: 0 <= i < |products| && products[i].subcategory == selected ==>
      products[i] in Shown(products, selected)
    ensures forall p :: multiset(Shown(products, selected))[p] ==
                  if p.subcategory == selected then multiset(products)[p] else 0
  {
    SelectedSpec(products, selected, SubcategoryKey);
  }
}

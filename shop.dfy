/** The shop page (src/pages/Shop.tsx): every product, narrowed to one category of the
    table by the category buttons. */
module Shop {
  import opened Common
  import opened Types
  import opened ProductFilter

  function CategoryKey(p: Product): string { p.category }

  /** The filter effect on [selectedCategory, products]. */
  function Shown(products: seq<Product>, selectedCategory: string): seq<Product>
  {
    Selected(products, selectedCategory, CategoryKey)
  }

  /** The page starts on 'All' and then shows every fetched product. */
  lemma InitialSelectionShowsAll(products: seq<Product>)
    ensures Shown(products, AllSentinel) == products
  {
    SelectedSpec(products, AllSentinel, CategoryKey);
  }

  /** A button of the table's categories shows exactly the products of that category,
      each as often as fetched and in order: no table category is called 'All', so the sentinel never takes over. */
  lemma CategoryButtonShowsThatCategory(products: seq<Product>, k: nat)
    requires k < |Categories()|
    ensures IsSubsequence(Shown(products, Categories()[k].name), products)
    ensures forall i :: 0 <= i < |Shown(products, Categories()[k].name)| ==>
      Shown(products, Categories()[k].name)[i].category == Categories()[k].name
    ensures forall i :: 0 <= i < |products| && products[i].category == Categories()[k].name ==>
      products[i] in Shown(products, Categories()[k].name)
    ensures forall p :: multiset(Shown(products, Categories()[k].name))[p] ==
                  if p.category == Categories()[k].name then multiset(products)[p] else 0
  {
    var name := Categories()[k].name;
    NoCategoryIsAll(k);
    SelectedSpec(products, name, CategoryKey);
  }

  lemma NoCategoryIsAll(k: nat)
    requires k < |Categories()|
    ensures Categories()[k].name != AllSentinel
  {
    AllIsNoCategoryName();
  }

  /** The page: a title, the category buttons and the grid of the shown products. */
  function View(loading: bool, products: seq<Product>, selectedCategory: string): GridView
  {
    GridOf(loading, Shown(products, selectedCategory))
  }
}

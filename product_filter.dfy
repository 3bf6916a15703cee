/** The storefront's product grids (src/pages/Shop.tsx, src/pages/Category.tsx) filter
    the fetched products by one field against a selection, where the sentinel 'All'
    keeps everything, and label the count "product" or "products". */
module ProductFilter {
  import opened Common
  import opened Types

  const AllSentinel := "All"

  /** The products shown for a selection, comparing the field `key` picks out. */
  function Selected(products: seq<Product>, selection: string, key: Product -> string): seq<Product>
  {
    if selection == AllSentinel then products
    else Filter(products, (p: Product) => key(p) == selection)
  }

  /** 'All' shows every product; any other selection shows exactly the products whose
      field equals it, each as often as it was fetched, in their fetched order. */
  lemma SelectedSpec(products: seq<Product>, selection: string, key: Product -> string)
    ensures selection == AllSentinel ==> Selected(products, selection, key) == products
    ensures IsSubsequence(Selected(products, selection, key), products)
    ensures selection != AllSentinel ==>
      && (forall i :: 0 <= i < |Selected(products, selection, key)| ==>
            key(Selected(products, selection, key)[i]) == selection)
      && (forall i :: 0 <= i < |products| && key(products[i]) == selection ==>
            products[i] in Selected(products, selection, key))
      && (forall p :: multiset(Selected(products, selection, key))[p] ==
            if key(p) == selection then multiset(products)[p] else 0)
  {
    if selection == AllSentinel {
      IsSubsequenceRefl(products);
    } else {
      FilterSpec(products, (p: Product) => key(p) == selection);
    }
  }

  lemma {:induction false} IsSubsequenceRefl<T>(s: seq<T>)
    ensures IsSubsequence(s, s)
    decreases |s|
  {
    if s != [] {
      IsSubsequenceRefl(s[1..]);
    }
  }

  /** "product" for exactly one, "products" for any other count, zero included. */
  function ProductNoun(n: int): (noun: string)
    ensures noun == "product" <==> n == 1
    ensures noun == "products" <==> n != 1
  {
    if n != 1 then "products" else "product"
  }

  const NoProductsMessage := "No products found in this category."

  /** The result area of a grid: the skeleton while loading, the cards with their count
      label, or the empty message. */
  datatype GridView =
    | Skeleton
    | Cards(shown: seq<Product>, noun: string)
    | NoProducts(message: string)

  function GridOf(loading: bool, shown: seq<Product>): GridView
  {
    if loading then Skeleton
    else if |shown| > 0 then Cards(shown, ProductNoun(|shown|))
    else NoProducts(NoProductsMessage)
  }

  /** Once loaded, the cards appear exactly when something is shown, and they are
      exactly the shown products, labelled by their count. */
  lemma GridCases(shown: seq<Product>)
    ensures GridOf(false, shown).Cards? <==> shown != []
    ensures shown != [] ==> GridOf(false, shown) == Cards(shown, ProductNoun(|shown|))
    ensures shown == [] ==> GridOf(false, shown) == NoProducts(NoProductsMessage)
  {
  }
}

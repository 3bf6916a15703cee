/** Record shapes shared by the storefront's screens and the fixed table of product
    categories with their subcategories (src/types/index.ts). */
module Types {
  import opened Common

  /** One line of the shopper's cart, as held in the cart, persisted on the device and
      copied into an order. `colors` is absent on lines added from a product card and
      holds zero or one colour on lines added from a product page. */
  datatype CartItem = CartItem(
    id: string,
    name: string,
    price: int,
    quantity: int,
    imageUrl: string,
    vendor: string,
    colors: Option<seq<string>>)

  /** An order row of the `orders` table. */
  datatype Order = Order(
    id: string,
    userEmail: string,
    userName: string,
    userPhone: string,
    userAddress: string,
    items: seq<CartItem>,
    totalAmount: int,
    paymentReference: string,
    status: string,
    createdAt: string)

  /** A product row of the `products` table, as the listing screens use it. */
  datatype Product = Product(
    id: string,
    name: string,
    description: string,
    price: int,
    category: string,
    subcategory: string,
    imageUrl: string,
    stock: int,
    vendor: string)

  datatype CategoryEntry = CategoryEntry(name: string, subcategories: seq<string>)

  /** The CATEGORIES table. */
  function Categories(): seq<CategoryEntry>
  {
    [ CategoryEntry("Fashion & Accessories",
        ["Clothing (Men)", "Clothing (Women)", "Clothing (Kids)", "Shoes", "Bags", "Jewelry", "Watches", "Headwear", "Eyewear"]),
      CategoryEntry("Food & Groceries",
        ["Foodstuff", "Spices & Condiments", "Packaged Foods", "Snacks & Drinks", "Frozen Foods", "Cereals & Baby Food", "Organic/Herbal Foods"]),
      CategoryEntry("Health & Beauty",
        ["Skincare", "Haircare", "Body Care", "Perfumes", "Makeup", "Supplements & Vitamins", "Herbal Products"]),
      CategoryEntry("Electronics & Gadgets",
        ["Phones & Tablets", "Accessories", "Home Appliances", "Computers & Accessories", "TVs & Audio Devices"]),
      CategoryEntry("Home & Living",
        ["Furniture", "Kitchenware", "Home Decor", "Cleaning Supplies", "Bedding"]),
      CategoryEntry("Baby & Kids",
        ["Baby Clothes", "Toys", "Baby Care", "School Supplies"]),
      CategoryEntry("Islamic & Religious",
        ["Islamic Books", "Hijabs & Jilbabs", "Prayer Mats", "Tasbih, Quran, etc."]),
      CategoryEntry("Services",
        ["Event Planning", "Graphic Design", "Tutorials & Online Classes", "Repairs", "Delivery Services"]),
      CategoryEntry("Agriculture",
        ["Farm Produce", "Fertilizers", "Seeds & Tools"]),
      CategoryEntry("Automobiles",
        ["Car Sales", "Spare Parts", "Car Accessories"])
    ]
  }

  /** Array.prototype.find on a category list: the first entry with that name. */
  function FindIn(table: seq<CategoryEntry>, name: string): (r: Option<CategoryEntry>)
    ensures r.Some? <==> exists i :: 0 <= i < |table| && table[i].name == name
    ensures r.Some? ==> r.value in table && r.value.name == name
  {
    if table == [] then None
    else if table[0].name == name then Some(table[0])
    else FindIn(table[1..], name)
  }

  /** In a table with distinct names, the lookup of a row's name finds that row. */
  lemma {:induction false} FindInAt(table: seq<CategoryEntry>, name: string, k: nat)
    requires k < |table| && table[k].name == name
    requires forall i, j :: 0 <= i < j < |table| ==> table[i].name != table[j].name
    ensures FindIn(table, name) == Some(table[k])
  {
    if k > 0 {
      assert table[0].name != name;
      FindInAt(table[1..], name, k - 1);
    }
  }

  /** `CATEGORIES.find((c) => c.name === name)`. */
  function FindCategory(name: string): Option<CategoryEntry>
  {
    FindIn(Categories(), name)
  }

  /** `CATEGORIES.find(...)?.subcategories || []`: the row of a known category, [] otherwise. */
  function SubcategoriesOf(name: string): (r: seq<string>)
    ensures FindCategory(name).None? ==> r == []
    ensures forall i :: 0 <= i < |Categories()| && Categories()[i].name == name ==> r == Categories()[i].subcategories
  {
    CategoryNamesDistinct();
    match FindCategory(name)
    case None => []
    case Some(entry) => entry.subcategories
  }

  predicate NoDuplicates(s: seq<string>)
  {
    forall i, j :: 0 <= i < j < |s| ==> s[i] != s[j]
  }

  /** The table has exactly ten categories. */
  lemma CategoryCount()
    ensures |Categories()| == 10
  {
  }

  /** Category names are pairwise distinct, so a lookup by name can match at most one row,
      and none is empty. */
  lemma CategoryNamesDistinct()
    ensures forall i, j :: 0 <= i < j < |Categories()| ==> Categories()[i].name != Categories()[j].name
    ensures forall i :: 0 <= i < |Categories()| ==> Categories()[i].name != ""
  {
  }

  /** Every category offers at least one subcategory, and none twice. */
  lemma SubcategoryListsWellFormed()
    ensures forall i :: 0 <= i < |Categories()| ==>
      Categories()[i].subcategories != [] && NoDuplicates(Categories()[i].subcategories)
  {
  }

  /** The filter sentinel 'All' is neither a category nor a subcategory name. */
  lemma AllIsNoCategoryName()
    ensures FindCategory("All").None?
    ensures forall i :: 0 <= i < |Categories()| ==> "All" !in Categories()[i].subcategories
  {
    var table := Categories();
    assert forall i :: 0 <= i < |table| ==> table[i].name != "All";
    forall i | 0 <= i < |table|
      ensures "All" !in table[i].subcategories
    {
      var subs := table[i].subcategories;
      assert forall j :: 0 <= j < |subs| ==> subs[j] != "All";
    }
  }
}

/** The cart store (src/contexts/CartContext.tsx): an ordered list of lines keyed by
    product id, merge-on-add, removal, quantity edits, derived totals, and the mirror
    of the list in the browser's local storage.

    Each operation of the provider replaces the whole list by a pure transform of the
    previous one; the transforms are the functions below, and the class CartProvider
    holds the mutable list and its persisted copy. */
module CartContext {
  import opened Common
  import opened Types
  import CartSnapshot

  /** The argument of addToCart: a cart line without its quantity. */
  datatype NewItem = NewItem(
    id: string,
    name: string,
    price: int,
    imageUrl: string,
    vendor: string,
    colors: Option<seq<string>>)

  /** `{ ...item, quantity }`. */
  function LineOf(item: NewItem, quantity: int): CartItem
  {
    CartItem(item.id, item.name, item.price, quantity, item.imageUrl, item.vendor, item.colors)
  }

  predicate HasId(c: seq<CartItem>, id: string)
  {
    exists i :: 0 <= i < |c| && c[i].id == id
  }

  predicate UniqueIds(c: seq<CartItem>)
  {
    forall i, j :: 0 <= i < j < |c| ==> c[i].id != c[j].id
  }

  predicate PositiveQuantities(c: seq<CartItem>)
  {
    forall i :: 0 <= i < |c| ==> c[i].quantity >= 1
  }

  /** The cart's invariant: one line per product id, and every quantity at least 1. */
  predicate ValidCart(c: seq<CartItem>)
  {
    UniqueIds(c) && PositiveQuantities(c)
  }

  // ---------------------------------------------------------------------------
  // The transforms passed to setCart

  /** addToCart: a product already in the cart has its quantity raised by one on
      every line with its id; a new product is appended with quantity 1. */
  function Added(c: seq<CartItem>, item: NewItem): seq<CartItem>
  {
    if HasId(c, item.id) then
      seq(|c|, i requires 0 <= i < |c| =>
        if c[i].id == item.id then c[i].(quantity := c[i].quantity + 1) else c[i])
    else
      c + [LineOf(item, 1)]
  }

  /** removeFromCart: `prev.filter((item) => item.id !== id)`. */
  function Removed(c: seq<CartItem>, id: string): seq<CartItem>
  {
    Filter(c, (l: CartItem) => l.id != id)
  }

  /** updateQuantity: a quantity of zero or less removes the product, any other
      quantity overwrites the quantity of every line with that id. */
  function WithQuantity(c: seq<CartItem>, id: string, quantity: int): seq<CartItem>
  {
    if quantity <= 0 then
      Removed(c, id)
    else
      seq(|c|, i requires 0 <= i < |c| =>
        if c[i].id == id then c[i].(quantity := quantity) else c[i])
  }

  /** The sum of `f` over the lines, as the reductions of the provider compute it. */
  function SumOf(c: seq<CartItem>, f: CartItem -> int): int
  {
    if c == [] then 0 else f(c[0]) + SumOf(c[1..], f)
  }

  function LineTotal(l: CartItem): int { l.price * l.quantity }

  function LineCount(l: CartItem): int { l.quantity }

  /** cartTotal: the sum of price times quantity over the lines. */
  function Total(c: seq<CartItem>): int
  {
    SumOf(c, LineTotal)
  }

  /** cartCount: the sum of the quantities. */
  function Count(c: seq<CartItem>): int
  {
    SumOf(c, LineCount)
  }

  /** The lazy initial state: an absent or empty saved value gives the empty cart;
      any other value is parsed, and a value that does not parse makes the provider
      throw (the source has no error handling there). */
  function Restore(saved: Option<CartSnapshot.Stored>): Result<seq<CartItem>>
  {
    match saved
    case None => Ok([])
    case Some(t) =>
      if t == [] then Ok([])
      else match CartSnapshot.Decode(t)
        case None => Err("JSON.parse: unexpected input")
        case Some(c) => Ok(c)
  }

  // ---------------------------------------------------------------------------
  // Sums

  lemma {:induction false} SumAppend(a: seq<CartItem>, b: seq<CartItem>, f: CartItem -> int)
    ensures SumOf(a + b, f) == SumOf(a, f) + SumOf(b, f)
  {
    if a == [] {
      assert a + b == b;
    } else {
      assert (a + b)[1..] == a[1..] + b;
      SumAppend(a[1..], b, f);
    }
  }

  /** Replacing one line changes the sum by the difference of that line's terms. */
  lemma {:induction false} SumReplace(c: seq<CartItem>, k: nat, x: CartItem, f: CartItem -> int)
    requires k < |c|
    ensures SumOf(c[k := x], f) == SumOf(c, f) - f(c[k]) + f(x)
  {
    if k > 0 {
      assert c[k := x][1..] == c[1..][k - 1 := x];
      SumReplace(c[1..], k - 1, x, f);
    }
  }

  /** Deleting one line lowers the sum by that line's term. */
  lemma {:induction false} SumDelete(c: seq<CartItem>, k: nat, f: CartItem -> int)
    requires k < |c|
    ensures SumOf(c[..k] + c[k + 1..], f) == SumOf(c, f) - f(c[k])
  {
    var rest := c[..k] + c[k + 1..];
    if k == 0 {
      assert rest == c[1..];
    } else {
      var tail := c[1..];
      SumDelete(tail, k - 1, f);
      assert tail[k - 1] == c[k];
      assert rest[0] == c[0];
      assert rest[1..] == tail[..k - 1] + tail[k..];
    }
  }

  /** Every line counts at least once, so a valid cart holds at least as many units
      as lines, and its count is 0 exactly when it is empty. */
  lemma {:induction false} CountAtLeastLines(c: seq<CartItem>)
    requires PositiveQuantities(c)
    ensures Count(c) >= |c|
    ensures Count(c) == 0 <==> c == []
  {
    if c != [] {
      CountAtLeastLines(c[1..]);
    }
  }

  // ---------------------------------------------------------------------------
  // What each operation does

  /** Adding a product that is not in the cart appends exactly one line, with
      quantity 1, at the end; the existing lines are unchanged. The count grows by
      one and the total by the new line's price. */
  lemma AddNewProduct(c: seq<CartItem>, item: NewItem)
    requires !HasId(c, item.id)
    ensures Added(c, item) == c + [LineOf(item, 1)]
    ensures Count(Added(c, item)) == Count(c) + 1
    ensures Total(Added(c, item)) == Total(c) + item.price
    ensures ValidCart(c) ==> ValidCart(Added(c, item))
  {
    SumAppend(c, [LineOf(item, 1)], LineCount);
    SumAppend(c, [LineOf(item, 1)], LineTotal);
  }

  /** Adding a product already in a valid cart raises the quantity of its line by
      exactly one, keeps its name, price, image, vendor and colours (the new
      item's are ignored), and adds no line. The total grows by the price already
      recorded on that line. */
  lemma AddExistingProduct(c: seq<CartItem>, item: NewItem, k: nat)
    requires ValidCart(c)
    requires k < |c| && c[k].id == item.id
    ensures Added(c, item) == c[k := c[k].(quantity := c[k].quantity + 1)]
    ensures Count(Added(c, item)) == Count(c) + 1
    ensures Total(Added(c, item)) == Total(c) + c[k].price
    ensures ValidCart(Added(c, item))
  {
    var r := Added(c, item);
    assert HasId(c, item.id);
    assert r == c[k := c[k].(quantity := c[k].quantity + 1)];
    SumReplace(c, k, c[k].(quantity := c[k].quantity + 1), LineCount);
    SumReplace(c, k, c[k].(quantity := c[k].quantity + 1), LineTotal);
    assert LineTotal(c[k].(quantity := c[k].quantity + 1)) == LineTotal(c[k]) + c[k].price;
  }

  /** Filtering never breaks uniqueness of ids. */
  lemma {:induction false} FilterKeepsUniqueIds(c: seq<CartItem>, keep: CartItem -> bool)
    requires UniqueIds(c)
    ensures UniqueIds(Filter(c, keep))
  {
    if c != [] {
      FilterKeepsUniqueIds(c[1..], keep);
      FilterKeeps(c[1..], keep);
      var rest := Filter(c[1..], keep);
      forall i | 0 <= i < |rest|
        ensures rest[i].id != c[0].id
      {
        var j :| 0 <= j < |c[1..]| && c[1..][j] == rest[i];
        assert c[j + 1] == rest[i];
      }
    }
  }

  /** removeFromCart deletes every line with that id and keeps the other lines in
      their order; it changes nothing when the id is absent. In a valid cart it
      deletes exactly the one line with that id, lowering count and total by that
      line's share, and the cart stays valid. */
  lemma RemoveProduct(c: seq<CartItem>, id: string)
    ensures !HasId(Removed(c, id), id)
    ensures IsSubsequence(Removed(c, id), c)
    ensures forall i :: 0 <= i < |c| && c[i].id != id ==> c[i] in Removed(c, id)
    ensures !HasId(c, id) ==> Removed(c, id) == c
    ensures ValidCart(c) ==> ValidCart(Removed(c, id))
    ensures forall k :: ValidCart(c) && 0 <= k < |c| && c[k].id == id ==>
      && Removed(c, id) == c[..k] + c[k + 1..]
      && Count(Removed(c, id)) == Count(c) - c[k].quantity
      && Total(Removed(c, id)) == Total(c) - c[k].price * c[k].quantity
  {
    var keep := (l: CartItem) => l.id != id;
    var r := Removed(c, id);
    FilterKeeps(c, keep);
    if !HasId(c, id) {
      FilterKeepsAll(c, keep);
    }
    if UniqueIds(c) {
      FilterKeepsUniqueIds(c, keep);
    }
    forall k | ValidCart(c) && 0 <= k < |c| && c[k].id == id
      ensures r == c[..k] + c[k + 1..]
      ensures Count(r) == Count(c) - c[k].quantity
      ensures Total(r) == Total(c) - c[k].price * c[k].quantity
    {
      FilterDropsOne(c, k, keep);
      SumDelete(c, k, LineCount);
      SumDelete(c, k, LineTotal);
    }
  }

  /** updateQuantity with a quantity of zero or less is removeFromCart. With a positive
      quantity it sets the quantity of the line with that id to exactly that value and
      changes nothing else (nothing at all when the id is absent); the count changes
      by the difference of the quantities, and a valid cart stays valid. */
  lemma UpdateQuantity(c: seq<CartItem>, id: string, quantity: int)
    ensures quantity <= 0 ==> WithQuantity(c, id, quantity) == Removed(c, id)
    ensures quantity > 0 && !HasId(c, id) ==> WithQuantity(c, id, quantity) == c
    ensures ValidCart(c) ==> ValidCart(WithQuantity(c, id, quantity))
    ensures forall k :: quantity > 0 && ValidCart(c) && 0 <= k < |c| && c[k].id == id ==>
      && WithQuantity(c, id, quantity) == c[k := c[k].(quantity := quantity)]
      && Count(WithQuantity(c, id, quantity)) == Count(c) - c[k].quantity + quantity
      && Total(WithQuantity(c, id, quantity)) == Total(c) + c[k].price * (quantity - c[k].quantity)
  {
    var r := WithQuantity(c, id, quantity);
    if quantity <= 0 {
      RemoveProduct(c, id);
    } else {
      forall k | ValidCart(c) && 0 <= k < |c| && c[k].id == id
        ensures r == c[k := c[k].(quantity := quantity)]
        ensures Count(r) == Count(c) - c[k].quantity + quantity
        ensures Total(r) == Total(c) + c[k].price * (quantity - c[k].quantity)
      {
        assert r == c[k := c[k].(quantity := quantity)];
        SumReplace(c, k, c[k].(quantity := quantity), LineCount);
        SumReplace(c, k, c[k].(quantity := quantity), LineTotal);
        assert LineTotal(c[k].(quantity := quantity)) - LineTotal(c[k]) == c[k].price * (quantity - c[k].quantity);
      }
    }
  }

  /** addToCart called n times in a row with the same product. */
  function AddedTimes(c: seq<CartItem>, item: NewItem, n: nat): seq<CartItem>
    decreases n
  {
    if n == 0 then c else Added(AddedTimes(c, item, n - 1), item)
  }

  /** n >= 1 consecutive adds of a product that is not in the cart append one line with
      quantity n. */
  lemma {:induction false} AddTimesNew(c: seq<CartItem>, item: NewItem, n: nat)
    requires ValidCart(c) && !HasId(c, item.id) && n >= 1
    ensures AddedTimes(c, item, n) == c + [LineOf(item, n)]
    ensures Count(AddedTimes(c, item, n)) == Count(c) + n
    ensures ValidCart(AddedTimes(c, item, n))
  {
    if n == 1 {
      AddNewProduct(c, item);
    } else {
      AddTimesNew(c, item, n - 1);
      var prev := AddedTimes(c, item, n - 1);
      var line := LineOf(item, n - 1);
      assert prev == c + [line];
      AddExistingProduct(prev, item, |c|);
      assert prev[|c|].(quantity := prev[|c|].quantity + 1) == LineOf(item, n);
      assert (c + [line])[|c| := LineOf(item, n)] == c + [LineOf(item, n)];
    }
  }

  /** n consecutive adds of the product on line k of a valid cart raise that line's
      quantity by n. */
  lemma {:induction false} AddTimesExisting(c: seq<CartItem>, item: NewItem, n: nat, k: nat)
    requires ValidCart(c) && k < |c| && c[k].id == item.id
    ensures AddedTimes(c, item, n) == c[k := c[k].(quantity := c[k].quantity + n)]
    ensures Count(AddedTimes(c, item, n)) == Count(c) + n
    ensures ValidCart(AddedTimes(c, item, n))
  {
    if n == 0 {
      assert c[k := c[k].(quantity := c[k].quantity + 0)] == c;
    } else {
      AddTimesExisting(c, item, n - 1, k);
      var prev := AddedTimes(c, item, n - 1);
      AddExistingProduct(prev, item, k);
      assert prev[k := prev[k].(quantity := prev[k].quantity + 1)]
          == c[k := c[k].(quantity := c[k].quantity + n)];
    }
  }

  /** n consecutive adds of a product that is not in the cart append one line with
      quantity n; n consecutive adds of a product that is in a valid cart raise its
      line's quantity by n. Either way the count grows by n and the cart stays valid. */
  lemma AddTimes(c: seq<CartItem>, item: NewItem, n: nat)
    requires ValidCart(c)
    ensures n >= 1 && !HasId(c, item.id) ==> AddedTimes(c, item, n) == c + [LineOf(item, n)]
    ensures forall k :: 0 <= k < |c| && c[k].id == item.id ==>
      AddedTimes(c, item, n) == c[k := c[k].(quantity := c[k].quantity + n)]
    ensures Count(AddedTimes(c, item, n)) == Count(c) + n
    ensures ValidCart(AddedTimes(c, item, n))
  {
    if HasId(c, item.id) {
      var k :| 0 <= k < |c| && c[k].id == item.id;
      AddTimesExisting(c, item, n, k);
      forall k' | 0 <= k' < |c| && c[k'].id == item.id
        ensures k' == k
      {
      }
    } else if n >= 1 {
      AddTimesNew(c, item, n);
    }
  }

  // ---------------------------------------------------------------------------
  // Any sequence of operations

  datatype CartAction =
    | Add(item: NewItem)
    | Remove(id: string)
    | SetQuantity(id: string, quantity: int)
    | Clear

  function Apply(c: seq<CartItem>, a: CartAction): seq<CartItem>
  {
    match a
    case Add(item) => Added(c, item)
    case Remove(id) => Removed(c, id)
    case SetQuantity(id, q) => WithQuantity(c, id, q)
    case Clear => []
  }

  function ApplyAll(c: seq<CartItem>, actions: seq<CartAction>): seq<CartItem>
    decreases |actions|
  {
    if actions == [] then c else ApplyAll(Apply(c, actions[0]), actions[1..])
  }

  /** Ids stay unique and quantities stay at least 1 across any sequence of add,
      remove, update and clear. */
  lemma {:induction false} ValidAcrossActions(c: seq<CartItem>, actions: seq<CartAction>)
    requires ValidCart(c)
    ensures ValidCart(ApplyAll(c, actions))
    decreases |actions|
  {
    if actions != [] {
      match actions[0] {
        case Add(item) =>
          if HasId(c, item.id) {
            var k :| 0 <= k < |c| && c[k].id == item.id;
            AddExistingProduct(c, item, k);
          } else {
            AddNewProduct(c, item);
          }
        case Remove(id) => RemoveProduct(c, id);
        case SetQuantity(id, q) => UpdateQuantity(c, id, q);
        case Clear =>
      }
      ValidAcrossActions(Apply(c, actions[0]), actions[1..]);
    }
  }

  /** After clearCart the cart is empty and both totals are 0. */
  lemma ClearEmpties(c: seq<CartItem>)
    ensures Apply(c, Clear) == [] && Total(Apply(c, Clear)) == 0 && Count(Apply(c, Clear)) == 0
  {
  }

  // ---------------------------------------------------------------------------
  // Persistence

  /** An absent or empty saved value restores to the empty cart, and what the
      provider persisted restores to the same cart, with the same totals. */
  lemma RestoreAfterPersist(c: seq<CartItem>)
    ensures Restore(None) == Ok([]) && Restore(Some([])) == Ok([])
    ensures Restore(Some(CartSnapshot.Encode(c))) == Ok(c)
    ensures Total(Restore(Some(CartSnapshot.Encode(c))).value) == Total(c)
  {
    CartSnapshot.RoundTrip(c);
  }

  /** The provider: the current cart and the value saved under the cart's storage key. */
  class CartProvider {
    var cart: seq<CartItem>
    var saved: Option<CartSnapshot.Stored>

    /** The storage effect has run: the saved value is the encoding of the cart. */
    ghost predicate Persisted()
      reads this
    {
      saved == Some(CartSnapshot.Encode(cart))
    }

    /** Mounting with an already restored cart; the storage effect then runs once. */
    constructor (restored: seq<CartItem>)
      ensures cart == restored && Persisted()
    {
      cart := restored;
      saved := Some(CartSnapshot.Encode(restored));
    }

    /** The effect on [cart]: `localStorage.setItem('talktoshop_cart', JSON.stringify(cart))`. */
    method Persist()
      modifies this`saved
      ensures Persisted()
    {
      saved := Some(CartSnapshot.Encode(cart));
    }

    method AddToCart(item: NewItem)
      modifies this
      ensures cart == Added(old(cart), item)
      ensures Persisted()
    {
      cart := Added(cart, item);
      Persist();
    }

    method RemoveFromCart(id: string)
      modifies this
      ensures cart == Removed(old(cart), id)
      ensures Persisted()
    {
      cart := Removed(cart, id);
      Persist();
    }

    method UpdateQuantity(id: string, quantity: int)
      modifies this
      ensures cart == WithQuantity(old(cart), id, quantity)
      ensures Persisted()
    {
      if quantity <= 0 {
        RemoveFromCart(id);
        return;
      }
      cart := WithQuantity(cart, id, quantity);
      Persist();
    }

    method ClearCart()
      modifies this
      ensures cart == [] && Persisted()
    {
      cart := [];
      Persist();
    }
  }

  /** Mounting the provider: the restored cart, or the parse error the provider throws. */
  method Mount(saved: Option<CartSnapshot.Stored>) returns (r: Result<CartProvider>)
    ensures r.Ok? <==> Restore(saved).Ok?
    ensures r.Ok? ==> fresh(r.value) && r.value.cart == Restore(saved).value && r.value.Persisted()
  {
    match Restore(saved)
    case Err(reason) =>
      r := Err(reason);
    case Ok(c) =>
      var p := new CartProvider(c);
      r := Ok(p);
  }
}

/**
 * The client-side cart ledger: an ordered list of lines, each a product
 * snapshot and a quantity, with the add / remove / update-quantity / clear
 * operations, the derived item count and total, and its persistence to a
 * key-value store under the key "cart".
 *
 * The operations themselves are pure rewritings of the previous list
 * (`find`, `map`, `filter`, spread), so they are functions over `seq`; the
 * provider that holds the list and the loaded flag and writes the store
 * after every change is the class `CartProvider`.
 */
module Cart {
  import opened Types

  /** One cart line: the product as it was when added, and how many of it. */
  datatype CartItem = CartItem(product: Product, quantity: int)

  // ----- Invariants of a ledger -----

  /** Some line holds the product with identity `id`. */
  predicate HasLine(items: seq<CartItem>, id: int) {
    exists i :: 0 <= i < |items| && items[i].product.id == id
  }

  /** No two lines share a product identity. */
  predicate UniqueIds(items: seq<CartItem>) {
    forall i, j :: 0 <= i < j < |items| ==> items[i].product.id != items[j].product.id
  }

  /** Every line holds at least one unit. */
  predicate PositiveQuantities(items: seq<CartItem>) {
    forall i :: 0 <= i < |items| ==> items[i].quantity >= 1
  }

  /** No line holds a negative quantity. */
  predicate NonNegativeQuantities(items: seq<CartItem>) {
    forall i :: 0 <= i < |items| ==> items[i].quantity >= 0
  }

  /** No line's product snapshot has a negative price. */
  predicate NonNegativePrices(items: seq<CartItem>) {
    forall i :: 0 <= i < |items| ==> items[i].product.price >= 0
  }

  /** The ledger invariant: unique identities and quantities of at least one. */
  predicate WellFormed(items: seq<CartItem>) {
    UniqueIds(items) && PositiveQuantities(items)
  }

  /** How many lines hold product `id`. */
  function LinesFor(items: seq<CartItem>, id: int): nat {
    if items == [] then 0
    else (if items[0].product.id == id then 1 else 0) + LinesFor(items[1..], id)
  }

  /** Total quantity held on lines for product `id`. */
  function QuantityFor(items: seq<CartItem>, id: int): int {
    if items == [] then 0
    else (if items[0].product.id == id then items[0].quantity else 0) + QuantityFor(items[1..], id)
  }

  // ----- Derived values -----

  /** `cartCount`: the sum of the line quantities; 0 for an empty cart, and at least one per line when every line holds a unit. */
  function Count(items: seq<CartItem>): (n: int)
    ensures items == [] ==> n == 0
    ensures PositiveQuantities(items) ==> n >= |items|
  {
    if items == [] then 0
    else
      assert forall i :: 0 <= i < |items[1..]| ==> items[1..][i] == items[i + 1];
      items[0].quantity + Count(items[1..])
  }

  /** `cartTotal`: the sum of snapshot price times quantity, in cents; never negative for non-negative prices and quantities. */
  function Total(items: seq<CartItem>): (t: int)
    ensures items == [] ==> t == 0
    ensures NonNegativeQuantities(items) && NonNegativePrices(items) ==> t >= 0
  {
    if items == [] then 0
    else
      var line := items[0];
      assert forall i :: 0 <= i < |items[1..]| ==> items[1..][i] == items[i + 1];
      assert line.product.price >= 0 && line.quantity >= 0 ==> line.product.price * line.quantity >= 0;
      line.product.price * line.quantity + Total(items[1..])
  }

  // ----- Operations -----

  /** The `map` in `addToCart`: every line for `id` gains one unit, nothing else changes. */
  function IncrementLines(items: seq<CartItem>, id: int): (r: seq<CartItem>)
    ensures |r| == |items|
    ensures forall i :: 0 <= i < |items| ==>
              r[i].product == items[i].product &&
              r[i].quantity == items[i].quantity + (if items[i].product.id == id then 1 else 0)
  {
    if items == [] then []
    else
      var line := items[0];
      var bumped := if line.product.id == id then line.(quantity := line.quantity + 1) else line;
      [bumped] + IncrementLines(items[1..], id)
  }

  /**
   * `addToCart(product)`: a product already in the cart gets one more unit on
   * its existing line (whose snapshot is kept); a new product is appended
   * with quantity 1.
   */
  function Added(items: seq<CartItem>, product: Product): (r: seq<CartItem>)
    ensures HasLine(r, product.id)
    ensures HasLine(items, product.id) ==>
              |r| == |items| &&
              forall i :: 0 <= i < |items| ==>
                r[i].product == items[i].product &&
                r[i].quantity == items[i].quantity + (if items[i].product.id == product.id then 1 else 0)
    ensures !HasLine(items, product.id) ==>
              |r| == |items| + 1 && r[..|items|] == items && r[|items|] == CartItem(product, 1)
  {
    if HasLine(items, product.id) then IncrementLines(items, product.id)
    else
      var r := items + [CartItem(product, 1)];
      assert r[|items|].product.id == product.id;
      r
  }

  /** `removeFromCart(id)`: keep, in order, exactly the lines for other products. */
  function Removed(items: seq<CartItem>, id: int): (r: seq<CartItem>)
    ensures forall i :: 0 <= i < |r| ==> r[i] in items && r[i].product.id != id
    ensures forall line :: line in items && line.product.id != id ==> line in r
    ensures !HasLine(r, id)
    ensures |r| == |items| - LinesFor(items, id)
    ensures !HasLine(items, id) ==> r == items
  {
    if items == [] then []
    else if items[0].product.id == id then Removed(items[1..], id)
    else [items[0]] + Removed(items[1..], id)
  }

  /** The `map` in `updateQuantity`: every line for `id` now holds `quantity` units. */
  function SetQuantity(items: seq<CartItem>, id: int, quantity: int): (r: seq<CartItem>)
    ensures |r| == |items|
    ensures forall i :: 0 <= i < |items| ==>
              r[i].product == items[i].product &&
              r[i].quantity == (if items[i].product.id == id then quantity else items[i].quantity)
  {
    if items == [] then []
    else
      var line := items[0];
      var updated := if line.product.id == id then line.(quantity := quantity) else line;
      [updated] + SetQuantity(items[1..], id, quantity)
  }

  /**
   * `updateQuantity(id, quantity)`: a quantity below 1 is rejected and the
   * cart stays as it is; otherwise the line for `id` takes the new quantity
   * and every other line, the length and the order are kept.
   */
  function QuantityUpdated(items: seq<CartItem>, id: int, quantity: int): (r: seq<CartItem>)
    ensures quantity < 1 ==> r == items
    ensures !HasLine(items, id) ==> r == items
    ensures |r| == |items|
    ensures forall i :: 0 <= i < |items| ==>
              r[i].product == items[i].product &&
              r[i].quantity == (if quantity >= 1 && items[i].product.id == id then quantity else items[i].quantity)
  {
    if quantity < 1 then items else SetQuantity(items, id, quantity)
  }

  // ----- Lemmas about the operations -----

  /** The count of a concatenation is the sum of the counts. */
  lemma {:induction false} CountAppend(a: seq<CartItem>, b: seq<CartItem>)
    ensures Count(a + b) == Count(a) + Count(b)
  {
    if a == [] {
      assert a + b == b;
    } else {
      assert (a + b)[1..] == a[1..] + b;
      CountAppend(a[1..], b);
    }
  }

  /** The total of a concatenation is the sum of the totals. */
  lemma {:induction false} TotalAppend(a: seq<CartItem>, b: seq<CartItem>)
    ensures Total(a + b) == Total(a) + Total(b)
  {
    if a == [] {
      assert a + b == b;
    } else {
      assert (a + b)[1..] == a[1..] + b;
      TotalAppend(a[1..], b);
    }
  }

  /** A product is in the cart exactly when some line is counted for it. */
  lemma {:induction false} HasLineIffLines(items: seq<CartItem>, id: int)
    ensures HasLine(items, id) <==> LinesFor(items, id) > 0
  {
    if items != [] {
      HasLineIffLines(items[1..], id);
      if items[0].product.id != id && HasLine(items, id) {
        var i :| 0 <= i < |items| && items[i].product.id == id;
        assert items[1..][i - 1].product.id == id;
      }
      if HasLine(items[1..], id) {
        var i :| 0 <= i < |items[1..]| && items[1..][i].product.id == id;
        assert items[i + 1].product.id == id;
      }
    }
  }

  /** With unique identities a product occupies at most one line. */
  lemma {:induction false} UniqueAtMostOneLine(items: seq<CartItem>, id: int)
    requires UniqueIds(items)
    ensures LinesFor(items, id) <= 1
  {
    if items != [] {
      UniqueTail(items);
      UniqueAtMostOneLine(items[1..], id);
      if items[0].product.id == id {
        HasLineIffLines(items[1..], id);
      }
    }
  }

  /** Incrementing the lines of `id` raises the count by the number of such lines. */
  lemma {:induction false} CountAfterIncrement(items: seq<CartItem>, id: int)
    ensures Count(IncrementLines(items, id)) == Count(items) + LinesFor(items, id)
  {
    if items != [] {
      CountAfterIncrement(items[1..], id);
    }
  }

  /** `cartCount` grows by exactly one on every `addToCart` of a well-keyed cart. */
  lemma AddedCount(items: seq<CartItem>, product: Product)
    requires UniqueIds(items)
    ensures Count(Added(items, product)) == Count(items) + 1
  {
    if HasLine(items, product.id) {
      CountAfterIncrement(items, product.id);
      HasLineIffLines(items, product.id);
      UniqueAtMostOneLine(items, product.id);
    } else {
      CountAppend(items, [CartItem(product, 1)]);
    }
  }

  /** `addToCart` keeps identities unique and quantities positive. */
  lemma AddedWellFormed(items: seq<CartItem>, product: Product)
    requires WellFormed(items)
    ensures WellFormed(Added(items, product))
  {
  }

  /** Appending a new product adds its price (one unit) to the total. */
  lemma AddedNewTotal(items: seq<CartItem>, product: Product)
    requires !HasLine(items, product.id)
    ensures Total(Added(items, product)) == Total(items) + product.price
  {
    TotalAppend(items, [CartItem(product, 1)]);
  }

  /** Removal distributes over concatenation, so the surviving lines keep their order. */
  lemma {:induction false} RemovedAppend(a: seq<CartItem>, b: seq<CartItem>, id: int)
    ensures Removed(a + b, id) == Removed(a, id) + Removed(b, id)
  {
    if a == [] {
      assert a + b == b;
    } else {
      assert (a + b)[0] == a[0];
      assert (a + b)[1..] == a[1..] + b;
      RemovedAppend(a[1..], b, id);
      if a[0].product.id == id {
        assert Removed(a + b, id) == Removed(a[1..] + b, id);
      } else {
        assert Removed(a + b, id) == [a[0]] + Removed(a[1..] + b, id);
        assert [a[0]] + (Removed(a[1..], id) + Removed(b, id)) == ([a[0]] + Removed(a[1..], id)) + Removed(b, id);
      }
    }
  }

  /** A single line survives removal exactly when it is for another product. */
  lemma RemovedSingle(line: CartItem, id: int)
    ensures Removed([line], id) == if line.product.id == id then [] else [line]
  {
  }

  /** Removing twice is removing once. */
  lemma RemovedIdempotent(items: seq<CartItem>, id: int)
    ensures Removed(Removed(items, id), id) == Removed(items, id)
  {
  }

  /** Removal introduces no product that was not already in the cart. */
  lemma RemovedKeepsAbsent(items: seq<CartItem>, id: int, other: int)
    requires !HasLine(items, other)
    ensures !HasLine(Removed(items, id), other)
  {
  }

  /** The lines after the first of a well-keyed cart are well keyed and do not hold its product. */
  lemma UniqueTail(items: seq<CartItem>)
    requires items != [] && UniqueIds(items)
    ensures UniqueIds(items[1..]) && !HasLine(items[1..], items[0].product.id)
  {
  }

  /** Putting a line for a new product in front of a well-keyed cart keeps it well keyed. */
  lemma UniqueCons(head: CartItem, rest: seq<CartItem>)
    requires UniqueIds(rest) && !HasLine(rest, head.product.id)
    ensures UniqueIds([head] + rest)
  {
  }

  /** `removeFromCart` keeps the identities unique. */
  lemma {:induction false} RemovedUnique(items: seq<CartItem>, id: int)
    requires UniqueIds(items)
    ensures UniqueIds(Removed(items, id))
  {
    if items != [] {
      UniqueTail(items);
      RemovedUnique(items[1..], id);
      if items[0].product.id != id {
        RemovedKeepsAbsent(items[1..], id, items[0].product.id);
        UniqueCons(items[0], Removed(items[1..], id));
      }
    }
  }

  /** `removeFromCart` keeps every remaining quantity positive. */
  lemma RemovedWellFormed(items: seq<CartItem>, id: int)
    requires WellFormed(items)
    ensures WellFormed(Removed(items, id))
  {
  }

  /** Removing a product lowers the count by the quantity it held. */
  lemma {:induction false} RemovedCount(items: seq<CartItem>, id: int)
    ensures Count(Removed(items, id)) == Count(items) - QuantityFor(items, id)
  {
    if items != [] {
      RemovedCount(items[1..], id);
    }
  }

  /** After setting the quantity of `id`, its lines hold `quantity` units each. */
  lemma {:induction false} QuantityForAfterSet(items: seq<CartItem>, id: int, quantity: int)
    ensures QuantityFor(SetQuantity(items, id, quantity), id) == quantity * LinesFor(items, id)
  {
    if items != [] {
      var tail := items[1..];
      QuantityForAfterSet(tail, id, quantity);
      var r := SetQuantity(items, id, quantity);
      assert r[1..] == SetQuantity(tail, id, quantity);
      if items[0].product.id == id {
        assert quantity * LinesFor(items, id) == quantity + quantity * LinesFor(tail, id);
      }
    }
  }

  /** Setting the quantity of `id` changes the count by what its lines now hold minus what they held. */
  lemma {:induction false} CountAfterSet(items: seq<CartItem>, id: int, quantity: int)
    ensures Count(SetQuantity(items, id, quantity)) ==
              Count(items) - QuantityFor(items, id) + QuantityFor(SetQuantity(items, id, quantity), id)
  {
    if items != [] {
      var tail := items[1..];
      CountAfterSet(tail, id, quantity);
      var r := SetQuantity(items, id, quantity);
      assert r[1..] == SetQuantity(tail, id, quantity);
    }
  }

  /** Setting the quantity of `id` replaces what its lines held by `quantity` per line. */
  lemma CountAfterSetQuantity(items: seq<CartItem>, id: int, quantity: int)
    ensures Count(SetQuantity(items, id, quantity)) == Count(items) - QuantityFor(items, id) + quantity * LinesFor(items, id)
  {
    CountAfterSet(items, id, quantity);
    QuantityForAfterSet(items, id, quantity);
  }

  /** In a well-keyed cart, updating a present line to `q >= 1` makes the count move by `q` minus the old quantity. */
  lemma UpdatedCount(items: seq<CartItem>, id: int, quantity: int)
    requires UniqueIds(items) && HasLine(items, id) && quantity >= 1
    ensures Count(QuantityUpdated(items, id, quantity)) == Count(items) - QuantityFor(items, id) + quantity
  {
    CountAfterSetQuantity(items, id, quantity);
    HasLineIffLines(items, id);
    UniqueAtMostOneLine(items, id);
  }

  /** `updateQuantity` keeps identities unique and quantities positive. */
  lemma UpdatedWellFormed(items: seq<CartItem>, id: int, quantity: int)
    requires WellFormed(items)
    ensures WellFormed(QuantityUpdated(items, id, quantity))
  {
  }

  // ----- Persistence and the provider -----

  /** The storage slot the cart is kept under. */
  const CartKey: string := "cart"

  /**
   * What a storage slot holds: the serialization of a list of cart lines,
   * or any other text (empty, or not parseable as a cart).
   */
  datatype Blob = Serialized(items: seq<CartItem>) | Text(raw: string)

  /** A key-value store standing for the browser's local storage. */
  class LocalStorage {
    var slots: map<string, Blob>

    constructor (initial: map<string, Blob>)
      ensures slots == initial
    {
      slots := initial;
    }

    /** `getItem(key)`: the stored value, or null when the key is absent. */
    method GetItem(key: string) returns (value: Option<Blob>)
      ensures value.Some? <==> key in slots
      ensures value.Some? ==> value.value == slots[key]
    {
      value := if key in slots then Some(slots[key]) else None;
    }

    /** `setItem(key, value)`: overwrite one slot, keep every other. */
    method SetItem(key: string, value: Blob)
      modifies this
      ensures slots == old(slots)[key := value]
    {
      slots := slots[key := value];
    }
  }

  /** The state the cart context keeps: the lines, the loaded flag, and the store it persists to. */
  class CartProvider {
    var cartItems: seq<CartItem>
    var isLoaded: bool
    const storage: LocalStorage

    /** Once loaded, the stored slot holds exactly the current lines. */
    ghost predicate Persisted()
      reads this, storage
    {
      isLoaded ==> CartKey in storage.slots && storage.slots[CartKey] == Serialized(cartItems)
    }

    /** The store after a change: rewritten with the current lines if loaded, untouched otherwise. */
    ghost predicate SavedIfLoaded(before: map<string, Blob>)
      reads this, storage
    {
      storage.slots == if isLoaded then before[CartKey := Serialized(cartItems)] else before
    }

    /** Mounting the provider: an empty cart, not yet loaded. */
    constructor (storage: LocalStorage)
      ensures this.storage == storage && cartItems == [] && !isLoaded
      ensures Persisted()
    {
      this.storage := storage;
      cartItems := [];
      isLoaded := false;
    }

    /** The save effect: serialize the whole cart into the slot, but only once loaded. */
    method SaveEffect()
      modifies storage
      ensures SavedIfLoaded(old(storage.slots))
      ensures Persisted()
    {
      if isLoaded {
        storage.SetItem(CartKey, Serialized(cartItems));
      }
    }

    /**
     * The load effect on mount: a stored cart replaces the lines; a missing,
     * empty or unparsable slot leaves them as they are. Either way the flag
     * is set, and the save effect then writes the lines back.
     */
    method LoadEffect()
      modifies this, storage
      ensures isLoaded
      ensures CartKey in old(storage.slots) && old(storage.slots)[CartKey].Serialized? ==>
                cartItems == old(storage.slots)[CartKey].items
      ensures !(CartKey in old(storage.slots) && old(storage.slots)[CartKey].Serialized?) ==>
                cartItems == old(cartItems)
      ensures storage.slots == old(storage.slots)[CartKey := Serialized(cartItems)]
      ensures Persisted()
    {
      var saved := storage.GetItem(CartKey);
      if saved.Some? && saved.value != Text("") {
        match saved.value
        case Serialized(items) =>
          cartItems := items;
        case Text(_) =>
          // The parse error is logged and the lines are kept.
      }
      isLoaded := true;
      SaveEffect();
    }

    /** `addToCart(product)` followed by the save effect. */
    method AddToCart(product: Product)
      modifies this, storage
      ensures isLoaded == old(isLoaded)
      ensures cartItems == Added(old(cartItems), product)
      ensures SavedIfLoaded(old(storage.slots)) && Persisted()
      ensures WellFormed(old(cartItems)) ==> WellFormed(cartItems)
      ensures UniqueIds(old(cartItems)) ==> Count(cartItems) == Count(old(cartItems)) + 1
    {
      if WellFormed(cartItems) {
        AddedWellFormed(cartItems, product);
      }
      if UniqueIds(cartItems) {
        AddedCount(cartItems, product);
      }
      cartItems := Added(cartItems, product);
      SaveEffect();
    }

    /** `removeFromCart(productId)` followed by the save effect. */
    method RemoveFromCart(productId: int)
      modifies this, storage
      ensures isLoaded == old(isLoaded)
      ensures cartItems == Removed(old(cartItems), productId)
      ensures SavedIfLoaded(old(storage.slots)) && Persisted()
      ensures WellFormed(old(cartItems)) ==> WellFormed(cartItems)
      ensures Count(cartItems) == Count(old(cartItems)) - QuantityFor(old(cartItems), productId)
    {
      if WellFormed(cartItems) {
        RemovedWellFormed(cartItems, productId);
      }
      RemovedCount(cartItems, productId);
      cartItems := Removed(cartItems, productId);
      SaveEffect();
    }

    /**
     * `updateQuantity(productId, quantity)`: a quantity below 1 returns before
     * the state is touched, so nothing is saved either.
     */
    method UpdateQuantity(productId: int, quantity: int)
      modifies this, storage
      ensures quantity < 1 ==> unchanged(this) && unchanged(storage)
      ensures quantity >= 1 ==>
                isLoaded == old(isLoaded) &&
                cartItems == QuantityUpdated(old(cartItems), productId, quantity) &&
                SavedIfLoaded(old(storage.slots)) && Persisted()
      ensures WellFormed(old(cartItems)) ==> WellFormed(cartItems)
    {
      if quantity < 1 {
        return;
      }
      if WellFormed(cartItems) {
        UpdatedWellFormed(cartItems, productId, quantity);
      }
      cartItems := QuantityUpdated(cartItems, productId, quantity);
      SaveEffect();
    }

    /** `clearCart()` followed by the save effect. */
    method ClearCart()
      modifies this, storage
      ensures isLoaded == old(isLoaded)
      ensures cartItems == [] && Count(cartItems) == 0 && Total(cartItems) == 0
      ensures SavedIfLoaded(old(storage.slots)) && Persisted()
    {
      cartItems := [];
      SaveEffect();
    }
  }

  /**
   * Mounting a second provider on the store of a loaded one: its load effect
   * reads back exactly the lines the first one saved.
   */
  method Remount(provider: CartProvider) returns (fresh_: CartProvider)
    requires provider.isLoaded && provider.Persisted()
    modifies provider.storage
    ensures fresh_.storage == provider.storage && fresh_.isLoaded
    ensures fresh_.cartItems == provider.cartItems
    ensures provider.storage.slots == old(provider.storage.slots)
  {
    fresh_ := new CartProvider(provider.storage);
    fresh_.LoadEffect();
  }
}

/**
 * The cart aggregate of the domain layer: immutable cart lines and a cart
 * whose item list and running total are updated in place.
 */
module CartDomain {
  import opened Common
  import opened JavaInt

  /** One line of a cart. It has a builder and getters only, so a value is
      the right model: nothing about a line changes after it is built. */
  datatype CartItem = CartItem(menuItemId: Uuid, menuItemName: string, unitPrice: Int32, quantity: Int32) {

    /** `getLineAmount()`: the Java `int` product of price and quantity. */
    function LineAmount(): Int32 {
      Mul(unitPrice, quantity)
    }
  }

  /** The line amount is the exact product when that fits in an `int`: zero
      when either factor is, and non-negative for non-negative factors. */
  lemma LineAmountExact(item: CartItem)
    ensures InRange(item.unitPrice * item.quantity) ==> item.LineAmount() == item.unitPrice * item.quantity
    ensures item.unitPrice == 0 || item.quantity == 0 ==> item.LineAmount() == 0
    ensures item.unitPrice >= 0 && item.quantity >= 0 && InRange(item.unitPrice * item.quantity) ==> item.LineAmount() >= 0
  {
  }

  /** The line amount really is the `int` product: past 2^31 - 1 it wraps to
      a negative amount. */
  lemma LineAmountWraps()
    ensures CartItem(0, "", 50_000, 50_000).LineAmount() == -1_794_967_296
  {
  }

  /** `mapToInt(CartItem::getLineAmount)`. */
  function LineAmounts(items: seq<CartItem>): (r: seq<Int32>)
    ensures |r| == |items|
    ensures forall i :: 0 <= i < |items| ==> r[i] == items[i].LineAmount()
  {
    seq(|items|, i requires 0 <= i < |items| => items[i].LineAmount())
  }

  /** What `recalcTotal()` stores: `sum()` of the line amounts. */
  function Total(items: seq<CartItem>): Int32 {
    Sum(LineAmounts(items))
  }

  /** The mathematical total Σ unitPrice × quantity, without wrap-around. */
  function ExactTotal(items: seq<CartItem>): int {
    ExactSum(seq(|items|, i requires 0 <= i < |items| => items[i].unitPrice * items[i].quantity))
  }

  /** The stored total is the exact total reduced to an `int`; it is exact
      whenever the exact total fits. */
  lemma TotalIsWrappedExactTotal(items: seq<CartItem>)
    ensures Total(items) == Wrap(ExactTotal(items))
    ensures InRange(ExactTotal(items)) ==> Total(items) == ExactTotal(items)
  {
    SumOfWrapped(LineAmounts(items), seq(|items|, i requires 0 <= i < |items| => items[i].unitPrice * items[i].quantity));
  }

  /** Appending a line adds its amount to the total (as a Java `int` addition). */
  lemma TotalAppend(items: seq<CartItem>, item: CartItem)
    ensures Total(items + [item]) == Add(Total(items), item.LineAmount())
  {
    assert LineAmounts(items + [item]) == LineAmounts(items) + [item.LineAmount()];
    SumAppend(LineAmounts(items), item.LineAmount());
  }

  /** `removeIf(i -> i.getMenuItemId().equals(menuItemId))`. */
  function Without(items: seq<CartItem>, menuItemId: Uuid): seq<CartItem> {
    Filter(items, (i: CartItem) => i.menuItemId != menuItemId)
  }

  /** Removal takes out every line with the id and nothing else. */
  lemma WithoutRemovesExactly(items: seq<CartItem>, menuItemId: Uuid)
    ensures forall i :: 0 <= i < |Without(items, menuItemId)| ==> Without(items, menuItemId)[i].menuItemId != menuItemId
    ensures forall x :: x in items && x.menuItemId != menuItemId ==> x in Without(items, menuItemId)
    ensures forall x :: x in Without(items, menuItemId) ==> x in items
  {
    var r := Without(items, menuItemId);
    forall x | x in items && x.menuItemId != menuItemId ensures x in r {
      var i :| 0 <= i < |items| && items[i] == x;
    }
    forall x | x in r ensures x in items {
      var i :| 0 <= i < |r| && r[i] == x;
    }
  }

  /** The remaining lines keep their relative order: removal works piecewise. */
  lemma WithoutKeepsOrder(a: seq<CartItem>, b: seq<CartItem>, menuItemId: Uuid)
    ensures Without(a + b, menuItemId) == Without(a, menuItemId) + Without(b, menuItemId)
  {
    FilterAppend(a, b, (i: CartItem) => i.menuItemId != menuItemId);
  }

  /** Removing an id the list does not hold removes nothing. */
  lemma WithoutAbsent(items: seq<CartItem>, menuItemId: Uuid)
    requires forall i :: 0 <= i < |items| ==> items[i].menuItemId != menuItemId
    ensures Without(items, menuItemId) == items
  {
    FilterKeepsAll(items, (i: CartItem) => i.menuItemId != menuItemId);
  }

  /** The serialised form of a cart, as the cache holds it. */
  datatype CartData = CartData(userId: Uuid, storeId: Option<Uuid>, totalAmount: Int32, items: seq<CartItem>)

  /** The total agrees with the lines. */
  predicate Consistent(c: CartData) {
    c.totalAmount == Total(c.items)
  }

  /** The cart after `addItem(item)`. */
  function Added(c: CartData, item: CartItem): (r: CartData)
    ensures Consistent(r)
  {
    var items := c.items + [item];
    c.(items := items, totalAmount := Total(items))
  }

  /** The cart after `removeItem(menuItemId)`. */
  function Removed(c: CartData, menuItemId: Uuid): (r: CartData)
    ensures Consistent(r)
  {
    var items := Without(c.items, menuItemId);
    c.(items := items, totalAmount := Total(items))
  }

  /** The cart after `clear()`. */
  function Cleared(c: CartData): (r: CartData)
    ensures Consistent(r)
  {
    c.(items := [], totalAmount := 0)
  }

  /** Adding appends at the end and never merges: even a line whose menu item
      is already in the cart becomes a second line. Owner and store stay. */
  lemma AddedAppends(c: CartData, item: CartItem)
    ensures |Added(c, item).items| == |c.items| + 1
    ensures Added(c, item).items[..|c.items|] == c.items
    ensures Added(c, item).items[|c.items|] == item
    ensures Added(c, item).userId == c.userId && Added(c, item).storeId == c.storeId
    ensures Added(c, item).totalAmount == Add(Total(c.items), item.LineAmount())
  {
    assert Added(c, item).items[..|c.items|] == c.items;
    TotalAppend(c.items, item);
  }

  /** Removing an absent id from a consistent cart changes nothing: the
      operation is idempotent. */
  lemma RemovedAbsent(c: CartData, menuItemId: Uuid)
    requires Consistent(c)
    requires forall i :: 0 <= i < |c.items| ==> c.items[i].menuItemId != menuItemId
    ensures Removed(c, menuItemId) == c
  {
    WithoutAbsent(c.items, menuItemId);
  }

  lemma RemovedIdempotent(c: CartData, menuItemId: Uuid)
    ensures Removed(Removed(c, menuItemId), menuItemId) == Removed(c, menuItemId)
  {
    FilterIdempotent(c.items, (i: CartItem) => i.menuItemId != menuItemId);
  }

  /** Removing the last line leaves the store id as it was: the cart does not
      forget its store when it becomes empty. */
  lemma RemovedKeepsStore(c: CartData, menuItemId: Uuid)
    ensures Removed(c, menuItemId).storeId == c.storeId
    ensures Removed(c, menuItemId).userId == c.userId
    ensures c.items == [] || (|c.items| == 1 && c.items[0].menuItemId == menuItemId) ==> Removed(c, menuItemId).items == []
  {
    if |c.items| == 1 && c.items[0].menuItemId == menuItemId {
      assert c.items[..0] == [];
    }
  }

  /** A cleared cart is empty and its total, 0, is the sum over no lines. */
  lemma ClearedIsEmpty(c: CartData)
    ensures Cleared(c).items == [] && Cleared(c).totalAmount == Total([]) == 0
    ensures Cleared(c).userId == c.userId && Cleared(c).storeId == c.storeId
  {
  }

  /** The in-memory cart: `items` is mutated in place and `totalAmount`
      rewritten. No method writes `userId` or `storeId`, so they are `const`. */
  class Cart {
    const userId: Uuid
    const storeId: Option<Uuid>
    var totalAmount: Int32
    var items: seq<CartItem>

    /** The cart's state as a value. */
    function Data(): CartData
      reads this
    {
      CartData(userId, storeId, totalAmount, items)
    }

    /** The builder, or reading a cart back from the cache. */
    constructor (data: CartData)
      ensures Data() == data
    {
      userId, storeId, totalAmount, items := data.userId, data.storeId, data.totalAmount, data.items;
    }

    method AddItem(item: CartItem)
      modifies this`items, this`totalAmount
      ensures Data() == Added(old(Data()), item)
    {
      items := items + [item];
      RecalcTotal();
    }

    method RemoveItem(menuItemId: Uuid)
      modifies this`items, this`totalAmount
      ensures Data() == Removed(old(Data()), menuItemId)
    {
      items := Without(items, menuItemId);
      RecalcTotal();
    }

    method Clear()
      modifies this`items, this`totalAmount
      ensures Data() == Cleared(old(Data()))
    {
      items := [];
      totalAmount := 0;
    }

    method RecalcTotal()
      modifies this`totalAmount
      ensures totalAmount == Total(items)
    {
      totalAmount := Total(items);
    }
  }

  /** Adding the same item twice gives two lines and twice the amount, not one
      merged line. */
  method AddTwice(data: CartData, item: CartItem) returns (lines: nat, total: Int32)
    requires data.items == []
    ensures lines == 2
    ensures total == Add(item.LineAmount(), item.LineAmount())
  {
    var cart := new Cart(data);
    cart.AddItem(item);
    cart.AddItem(item);
    lines := |cart.items|;
    total := cart.totalAmount;
    TotalAppend([], item);
    TotalAppend([item], item);
    assert [item] + [item] == cart.items;
  }
}

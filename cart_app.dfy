/**
 * The cart service: one cart per user in an expiring key-value cache, under
 * the key "cart:" followed by the user id.
 */
module CartApp {
  import opened Common
  import opened JavaInt
  import opened JavaText
  import opened Exceptions
  import opened CartDomain

  const CART_KEY_PREFIX: string := "cart:"

  /** `CART_EXPIRY`, one hour, in seconds. */
  const CART_EXPIRY_SECONDS: nat := 60 * 60

  /** A cached value: a cart, or an object of any other type (the source
      tests `instanceof Cart`). */
  datatype Cached = CachedCart(cart: CartData) | CachedOther

  /** A cache entry with the time-to-live it was last written with. Expiry
      itself is not modelled. */
  datatype Entry = Entry(value: Cached, ttlSeconds: nat)

  type Cache = map<string, Entry>

  /** `buildCartKey(userId)`: the prefix followed by `Long.toString(userId)`. */
  function BuildCartKey(userId: Int64): (key: string)
    ensures |key| > |CART_KEY_PREFIX| && key[..|CART_KEY_PREFIX|] == CART_KEY_PREFIX
    ensures ParseLong(key[|CART_KEY_PREFIX|..]) == userId
  {
    LongToStringRoundTrip(userId);
    CART_KEY_PREFIX + LongToString(userId)
  }

  /** Different users never share a cache key. */
  lemma CartKeyInjective(a: Int64, b: Int64)
    ensures BuildCartKey(a) == BuildCartKey(b) <==> a == b
  {
    if BuildCartKey(a) == BuildCartKey(b) {
      assert LongToString(a) == BuildCartKey(a)[|CART_KEY_PREFIX|..];
      assert LongToString(b) == BuildCartKey(b)[|CART_KEY_PREFIX|..];
      LongToStringInjective(a, b);
    }
  }

  /** Every cached cart's total agrees with its lines. */
  ghost predicate AllConsistent(cache: Cache) {
    forall k :: k in cache && cache[k].value.CachedCart? ==> Consistent(cache[k].value.cart)
  }

  class CartService {
    /** The cache (Redis). */
    var cache: Cache

    // Collaborators the service calls but whose code is not part of this model:
    // `item.validate()`, `item.getStoreId()`, `cart.isSameStore(storeId)` and
    // `UUID.nameUUIDFromBytes(userId.toString().getBytes())`.
    const validate: CartItem -> bool
    const storeOf: CartItem -> Option<Uuid>
    const isSameStore: (CartData, Option<Uuid>) -> bool
    const nameUuid: string -> Uuid

    constructor (validate: CartItem -> bool, storeOf: CartItem -> Option<Uuid>,
                 isSameStore: (CartData, Option<Uuid>) -> bool, nameUuid: string -> Uuid)
      ensures cache == map[]
      ensures this.validate == validate && this.storeOf == storeOf
      ensures this.isSameStore == isSameStore && this.nameUuid == nameUuid
    {
      cache := map[];
      this.validate, this.storeOf, this.isSameStore, this.nameUuid := validate, storeOf, isSameStore, nameUuid;
    }

    ghost predicate Valid()
      reads this
    {
      AllConsistent(cache)
    }

    /** `createNewCart(userId)`: an empty cart whose owner id is derived from
        the user id alone, with no store. */
    function CreateNewCart(userId: Int64): (c: CartData)
      ensures c.userId == nameUuid(LongToString(userId))
      ensures c.storeId == None && c.items == [] && c.totalAmount == 0
      ensures Consistent(c)
    {
      CartData(nameUuid(LongToString(userId)), None, 0, [])
    }

    /** The cart a lookup of `userId` in `cache` yields: the cached cart, or a
        fresh empty one when the key is absent or holds something else. */
    function CartOf(cache: Cache, userId: Int64): CartData {
      var key := BuildCartKey(userId);
      if key in cache && cache[key].value.CachedCart? then cache[key].value.cart else CreateNewCart(userId)
    }

    method AddItem(userId: Int64, item: Option<CartItem>) returns (out: Outcome)
      modifies this`cache
      ensures item.None? ==> out == Fail(NullArgument) && cache == old(cache)
      ensures item.Some? && !validate(item.value) ==> out == Fail(InvalidItem) && cache == old(cache)
      ensures item.Some? && validate(item.value) && !isSameStore(CartOf(old(cache), userId), storeOf(item.value)) ==>
        out == Fail(DifferentStore) && cache == old(cache)
      ensures item.Some? && validate(item.value) && isSameStore(CartOf(old(cache), userId), storeOf(item.value)) ==>
        out == Done &&
        cache == old(cache)[BuildCartKey(userId) := Entry(CachedCart(Added(CartOf(old(cache), userId), item.value)), CART_EXPIRY_SECONDS)]
      ensures old(Valid()) ==> Valid()
    {
      if item.None? {
        return Fail(NullArgument);
      }
      if !validate(item.value) {
        return Fail(InvalidItem);
      }
      var key := BuildCartKey(userId);
      var data: CartData;
      if key in cache && cache[key].value.CachedCart? {
        data := cache[key].value.cart;
      } else {
        data := CreateNewCart(userId);
      }
      var cart := new Cart(data);
      if !isSameStore(cart.Data(), storeOf(item.value)) {
        return Fail(DifferentStore);
      }
      cart.AddItem(item.value);
      cache := cache[key := Entry(CachedCart(cart.Data()), CART_EXPIRY_SECONDS)];
      out := Done;
    }

    /** `getCart(userId)` never fails and never writes. */
    method GetCart(userId: Int64) returns (cart: CartData)
      ensures cart == CartOf(cache, userId)
      ensures BuildCartKey(userId) !in cache ==> cart == CreateNewCart(userId)
    {
      var key := BuildCartKey(userId);
      if key in cache && cache[key].value.CachedCart? {
        return cache[key].value.cart;
      }
      return CreateNewCart(userId);
    }

    method RemoveItem(userId: Int64, menuItemId: Option<Uuid>) returns (out: Outcome)
      modifies this`cache
      ensures menuItemId.None? ==> out == Fail(NullArgument) && cache == old(cache)
      ensures menuItemId.Some? ==> out == Done
      ensures menuItemId.Some? && BuildCartKey(userId) in old(cache) && old(cache)[BuildCartKey(userId)].value.CachedCart? ==>
        cache == old(cache)[BuildCartKey(userId) := Entry(CachedCart(Removed(old(cache)[BuildCartKey(userId)].value.cart, menuItemId.value)), CART_EXPIRY_SECONDS)]
      ensures !(BuildCartKey(userId) in old(cache) && old(cache)[BuildCartKey(userId)].value.CachedCart?) ==> cache == old(cache)
      ensures old(Valid()) ==> Valid()
    {
      if menuItemId.None? {
        return Fail(NullArgument);
      }
      var key := BuildCartKey(userId);
      if key in cache && cache[key].value.CachedCart? {
        var cart := new Cart(cache[key].value.cart);
        cart.RemoveItem(menuItemId.value);
        cache := cache[key := Entry(CachedCart(cart.Data()), CART_EXPIRY_SECONDS)];
      }
      out := Done;
    }

    method ClearCart(userId: Int64)
      modifies this`cache
      ensures cache == old(cache) - {BuildCartKey(userId)}
      ensures CartOf(cache, userId) == CreateNewCart(userId)
      ensures old(Valid()) ==> Valid()
    {
      cache := cache - {BuildCartKey(userId)};
    }

    /** Writing one user's key leaves every other user's cart as it was. */
    lemma WriteIsolated(cache: Cache, u: Int64, e: Entry, v: Int64)
      requires u != v
      ensures CartOf(cache[BuildCartKey(u) := e], v) == CartOf(cache, v)
    {
      CartKeyInjective(u, v);
    }

    /** Deleting one user's key leaves every other user's cart as it was. */
    lemma DeleteIsolated(cache: Cache, u: Int64, v: Int64)
      requires u != v
      ensures CartOf(cache - {BuildCartKey(u)}, v) == CartOf(cache, v)
    {
      CartKeyInjective(u, v);
    }

    /** Removing an item from a consistent cart that does not hold it rewrites
        the same cart and only refreshes the time-to-live. */
    lemma RemoveAbsentRewritesSameCart(c: CartData, menuItemId: Uuid)
      requires Consistent(c)
      requires forall i :: 0 <= i < |c.items| ==> c.items[i].menuItemId != menuItemId
      ensures Entry(CachedCart(Removed(c, menuItemId)), CART_EXPIRY_SECONDS) == Entry(CachedCart(c), CART_EXPIRY_SECONDS)
    {
      RemovedAbsent(c, menuItemId);
    }
  }
}

/**
 * The client cart store (CartContext.jsx): the list of cart lines of the
 * signed-in user, the operations that replace it after a gateway call, and
 * the totals and lookups derived from it.
 *
 * A line arrives in one of two shapes: the flat DTO (`productId`,
 * `productPrice`, ...) or the entity with a nested `product`. The resolver
 * functions below read whichever is present, with JavaScript's `||`
 * semantics (a 0 or absent number falls through to the next alternative).
 */
module CartStore {
  import opened Wrappers

  /** The seller nested in a product of the entity shape. */
  datatype NestedSeller = NestedSeller(firstName: Option<string>, lastName: Option<string>, businessName: Option<string>)

  /** The `product` record nested in a line of the entity shape. */
  datatype NestedProduct = NestedProduct(id: Option<int>, price: Option<int>, name: Option<string>, seller: Option<NestedSeller>)

  /**
   * One cart line, as the gateway returns it; absent JSON fields are `None`.
   * The backend's DTO sends `sellerBusinessName`; `businessName` is the
   * field the cart row component reads.
   */
  datatype CartLine = CartLine(
    id: int,
    productId: Option<int>,
    productPrice: Option<int>,
    productName: Option<string>,
    quantity: Option<int>,
    sellerName: Option<string>,
    sellerBusinessName: Option<string>,
    businessName: Option<string>,
    product: Option<NestedProduct>)

  /** JavaScript truthiness of an optional number: present and not 0. */
  predicate Truthy(n: Option<int>) {
    n.Some? && n.value != 0
  }

  /** `item.productId || (item.product && item.product.id)`. */
  function LineProductId(l: CartLine): Option<int> {
    if Truthy(l.productId) then l.productId
    else if l.product.Some? then l.product.value.id
    else None
  }

  /** `item.productPrice || (item.product && item.product.price) || 0`. */
  function UnitPrice(l: CartLine): int {
    if Truthy(l.productPrice) then l.productPrice.value
    else if l.product.Some? && Truthy(l.product.value.price) then l.product.value.price.value
    else 0
  }

  /** `item.quantity || 0`. */
  function Quantity(l: CartLine): int {
    l.quantity.GetOr(0)
  }

  function LineTotal(l: CartLine): int {
    UnitPrice(l) * Quantity(l)
  }

  /** `getCartTotal`: the left fold of `total + price * quantity` from 0. */
  function CartTotal(items: seq<CartLine>): int {
    if items == [] then 0 else CartTotal(items[..|items| - 1]) + LineTotal(items[|items| - 1])
  }

  /** `getCartItemCount`: the left fold of `total + (quantity || 0)` from 0. */
  function ItemCount(items: seq<CartLine>): int {
    if items == [] then 0 else ItemCount(items[..|items| - 1]) + Quantity(items[|items| - 1])
  }

  /** The line `findIndex`/`find` select for `productId`: the first one resolving to it. */
  function FindProductIndex(items: seq<CartLine>, productId: int): (r: Option<nat>)
    ensures r.Some? ==> r.value < |items| && LineProductId(items[r.value]) == Some(productId)
    ensures r.Some? ==> forall j :: 0 <= j < r.value ==> LineProductId(items[j]) != Some(productId)
    ensures r.None? ==> forall j :: 0 <= j < |items| ==> LineProductId(items[j]) != Some(productId)
  {
    if items == [] then None
    else if LineProductId(items[0]) == Some(productId) then Some(0)
    else match FindProductIndex(items[1..], productId)
      case None => None
      case Some(k) => Some(k + 1)
  }

  /** `isInCart(productId)`: some line resolves to `productId`. */
  function IsInCart(items: seq<CartLine>, productId: int): (r: bool)
    ensures r <==> exists j :: 0 <= j < |items| && LineProductId(items[j]) == Some(productId)
  {
    FindProductIndex(items, productId).Some?
  }

  /** `getCartItemQuantity(productId)`: the `quantity` field of the first matching line, else 0. */
  function ItemQuantity(items: seq<CartLine>, productId: int): (r: Option<int>)
    ensures !IsInCart(items, productId) ==> r == Some(0)
    ensures forall j :: 0 <= j < |items| && LineProductId(items[j]) == Some(productId)
                 && (forall k :: 0 <= k < j ==> LineProductId(items[k]) != Some(productId))
                 ==> r == items[j].quantity
  {
    match FindProductIndex(items, productId)
    case Some(i) => items[i].quantity
    case None => Some(0)
  }

  /** Every product id is resolved by at most one line. */
  predicate OneLinePerProduct(items: seq<CartLine>) {
    forall i, j :: 0 <= i < j < |items| && LineProductId(items[i]).Some? ==> LineProductId(items[i]) != LineProductId(items[j])
  }

  /** The list after a successful add of `productId` that returned `line`. */
  function AddedLine(items: seq<CartLine>, productId: int, line: CartLine): seq<CartLine> {
    match FindProductIndex(items, productId)
    case Some(i) => items[i := line]
    case None => items + [line]
  }

  /** `prev.map(item => item.id === cartItemId ? updatedItem : item)`. */
  function ReplaceById(items: seq<CartLine>, cartItemId: int, line: CartLine): (r: seq<CartLine>)
    ensures |r| == |items|
    ensures forall j :: 0 <= j < |items| ==> r[j] == if items[j].id == cartItemId then line else items[j]
  {
    if items == [] then []
    else [if items[0].id == cartItemId then line else items[0]] + ReplaceById(items[1..], cartItemId, line)
  }

  /** `prev.filter(item => item.id !== cartItemId)`. */
  function RemoveById(items: seq<CartLine>, cartItemId: int): (r: seq<CartLine>)
    ensures |r| <= |items|
    ensures forall j :: 0 <= j < |r| ==> r[j].id != cartItemId
  {
    if items == [] then []
    else if items[0].id == cartItemId then RemoveById(items[1..], cartItemId)
    else [items[0]] + RemoveById(items[1..], cartItemId)
  }

  /** The requests the store sends to the remote cart gateway. */
  datatype GatewayCall =
    | GetCart(userId: int)
    | AddLine(userId: int, productId: int, quantity: int)
    | UpdateLine(cartItemId: int, quantity: int)
    | DeleteLine(cartItemId: int)
    | ClearAll(userId: int)

  /** The JSON a cart fetch can return: an array of lines, or something else. */
  datatype CartPayload = LineArray(lines: seq<CartLine>) | NotAnArray

  /** `setCartItems(Array.isArray(items) ? items : [])`, and `[]` in the `catch`. */
  function LoadedItems(reply: Outcome<CartPayload>): (r: seq<CartLine>)
    ensures reply.Returned? && reply.value.LineArray? ==> r == reply.value.lines
    ensures !(reply.Returned? && reply.value.LineArray?) ==> r == []
  {
    match reply
    case Returned(LineArray(lines)) => lines
    case _ => []
  }

  /** The product argument of `addToCart`. */
  datatype ProductRef = ProductRef(id: int, name: string)

  class CartProvider {
    /** The id of the signed-in user, `None` when signed out. */
    var user: Option<int>
    var cartItems: seq<CartLine>
    var loading: bool

    constructor ()
      ensures user == None && cartItems == [] && !loading
    {
      user := None;
      cartItems := [];
      loading := false;
    }

    /** The `useEffect` on `[user]`: reload for a user, empty the cart without a call otherwise. */
    method OnUserChange(newUser: Option<int>, reply: Outcome<CartPayload>) returns (call: Option<GatewayCall>)
      modifies this
      ensures user == newUser
      ensures newUser.None? ==> call == None && cartItems == [] && loading == old(loading)
      ensures newUser.Some? ==> !loading && call == Some(GetCart(newUser.value)) && cartItems == LoadedItems(reply)
    {
      user := newUser;
      if newUser.Some? {
        call := LoadCartItems(reply);
      } else {
        cartItems := [];
        call := None;
      }
    }

    /** `loadCartItems`: replace the whole list with the fetched one. */
    method LoadCartItems(reply: Outcome<CartPayload>) returns (call: Option<GatewayCall>)
      modifies this
      ensures user == old(user)
      ensures old(user).None? ==> call == None && cartItems == old(cartItems) && loading == old(loading)
      ensures old(user).Some? ==> call == Some(GetCart(user.value)) && cartItems == LoadedItems(reply) && !loading
    {
      if user.None? {
        return None;
      }
      call := Some(GetCart(user.value));
      loading := true;
      cartItems := LoadedItems(reply);
      loading := false;
    }

    /** `addToCart(product, quantity)`; `reply` is what the gateway's add returned. */
    method AddToCart(product: ProductRef, quantity: int, reply: Outcome<CartLine>) returns (call: Option<GatewayCall>)
      modifies this
      ensures user == old(user) && loading == old(loading)
      ensures old(user).None? ==> call == None && cartItems == old(cartItems)
      ensures old(user).Some? ==> call == Some(AddLine(user.value, product.id, quantity))
      ensures old(user).Some? && reply.Threw? ==> cartItems == old(cartItems)
      ensures old(user).Some? && reply.Returned? ==> cartItems == AddedLine(old(cartItems), product.id, reply.value)
    {
      if user.None? {
        return None;
      }
      call := Some(AddLine(user.value, product.id, quantity));
      if reply.Returned? {
        var existingItemIndex := FindProductIndex(cartItems, product.id);
        if existingItemIndex.Some? {
          var updatedItems := cartItems;
          updatedItems := updatedItems[existingItemIndex.value := reply.value];
          cartItems := updatedItems;
        } else {
          cartItems := cartItems + [reply.value];
        }
      }
    }

    /**
     * `updateCartItem(cartItemId, quantity)`. A quantity of 0 or less is a
     * `removeFromCart`, whose outcome is `removeReply`; otherwise the
     * gateway's update settles with `updateReply` (whose value may be falsy).
     */
    method UpdateCartItem(cartItemId: int, quantity: int, updateReply: Outcome<Option<CartLine>>, removeReply: Outcome<()>)
      returns (call: Option<GatewayCall>)
      modifies this
      ensures user == old(user) && loading == old(loading)
      ensures quantity <= 0 ==> call == Some(DeleteLine(cartItemId))
      ensures quantity <= 0 && removeReply.Returned? ==> cartItems == RemoveById(old(cartItems), cartItemId)
      ensures quantity <= 0 && removeReply.Threw? ==> cartItems == old(cartItems)
      ensures quantity > 0 ==> call == Some(UpdateLine(cartItemId, quantity))
      ensures quantity > 0 && updateReply.Returned? && updateReply.value.Some? ==>
                cartItems == ReplaceById(old(cartItems), cartItemId, updateReply.value.value)
      ensures quantity > 0 && !(updateReply.Returned? && updateReply.value.Some?) ==> cartItems == old(cartItems)
    {
      if quantity <= 0 {
        call := RemoveFromCart(cartItemId, removeReply);
        return;
      }
      call := Some(UpdateLine(cartItemId, quantity));
      if updateReply.Returned? && updateReply.value.Some? {
        cartItems := ReplaceById(cartItems, cartItemId, updateReply.value.value);
      }
    }

    /** `removeFromCart(cartItemId)`. */
    method RemoveFromCart(cartItemId: int, reply: Outcome<()>) returns (call: Option<GatewayCall>)
      modifies this
      ensures user == old(user) && loading == old(loading)
      ensures call == Some(DeleteLine(cartItemId))
      ensures reply.Returned? ==> cartItems == RemoveById(old(cartItems), cartItemId)
      ensures reply.Threw? ==> cartItems == old(cartItems)
    {
      call := Some(DeleteLine(cartItemId));
      if reply.Returned? {
        cartItems := RemoveById(cartItems, cartItemId);
      }
    }

    /** `clearCart()`: a no-op without a user; empties the list once the gateway acknowledges. */
    method ClearCart(reply: Outcome<()>) returns (call: Option<GatewayCall>)
      modifies this
      ensures user == old(user) && loading == old(loading)
      ensures old(user).None? ==> call == None && cartItems == old(cartItems)
      ensures old(user).Some? ==> call == Some(ClearAll(user.value))
      ensures old(user).Some? && reply.Returned? ==> cartItems == []
      ensures old(user).Some? && reply.Threw? ==> cartItems == old(cartItems)
    {
      if user.None? {
        return None;
      }
      call := Some(ClearAll(user.value));
      if reply.Returned? {
        cartItems := [];
      }
    }
  }

  // ---------------------------------------------------------------------
  // Properties of the totals

  /** The total of two lists laid end to end is the sum of their totals. */
  lemma {:induction false} CartTotalAppend(a: seq<CartLine>, b: seq<CartLine>)
    ensures CartTotal(a + b) == CartTotal(a) + CartTotal(b)
  {
    if b != [] {
      var b' := b[..|b| - 1];
      assert (a + b)[..|a + b| - 1] == a + b';
      CartTotalAppend(a, b');
    } else {
      assert a + b == a;
    }
  }

  lemma {:induction false} ItemCountAppend(a: seq<CartLine>, b: seq<CartLine>)
    ensures ItemCount(a + b) == ItemCount(a) + ItemCount(b)
  {
    if b != [] {
      var b' := b[..|b| - 1];
      assert (a + b)[..|a + b| - 1] == a + b';
      ItemCountAppend(a, b');
    } else {
      assert a + b == a;
    }
  }

  /** An empty cart totals 0; the example of two lines from the design notes totals 250. */
  lemma CartTotalExamples(l1: CartLine, l2: CartLine)
    requires l1.productPrice == Some(100) && l1.quantity == Some(2)
    requires l2.productPrice == Some(50) && l2.quantity == Some(1)
    ensures CartTotal([]) == 0 && ItemCount([]) == 0
    ensures CartTotal([l1, l2]) == 250 && ItemCount([l1, l2]) == 3
  {
    assert [l1, l2][..1] == [l1];
    assert [l1][..0] == [];
  }

  /** A line's contribution only depends on its own fields: replacing line `i` moves the total by the difference. */
  lemma CartTotalReplace(items: seq<CartLine>, i: nat, line: CartLine)
    requires i < |items|
    ensures CartTotal(items[i := line]) == CartTotal(items) - LineTotal(items[i]) + LineTotal(line)
    ensures ItemCount(items[i := line]) == ItemCount(items) - Quantity(items[i]) + Quantity(line)
  {
    var pre, post := items[..i], items[i + 1..];
    assert items == pre + [items[i]] + post;
    assert items[i := line] == pre + [line] + post;
    CartTotalAppend(pre + [items[i]], post);
    CartTotalAppend(pre + [line], post);
    CartTotalAppend(pre, [items[i]]);
    CartTotalAppend(pre, [line]);
    ItemCountAppend(pre + [items[i]], post);
    ItemCountAppend(pre + [line], post);
    ItemCountAppend(pre, [items[i]]);
    ItemCountAppend(pre, [line]);
    assert [items[i]][..0] == [] && [line][..0] == [];
  }

  /** With non-negative prices and quantities the total and the count are non-negative. */
  lemma {:induction false} CartTotalNonNegative(items: seq<CartLine>)
    requires forall j :: 0 <= j < |items| ==> UnitPrice(items[j]) >= 0 && Quantity(items[j]) >= 0
    ensures CartTotal(items) >= 0 && ItemCount(items) >= 0
  {
    if items != [] {
      CartTotalNonNegative(items[..|items| - 1]);
    }
  }

  // ---------------------------------------------------------------------
  // Properties of the list operations

  /** A successful add keeps the list's length when the product had a line, and grows it by one otherwise. */
  lemma AddedLineShape(items: seq<CartLine>, productId: int, line: CartLine)
    ensures IsInCart(items, productId) ==> |AddedLine(items, productId, line)| == |items|
    ensures !IsInCart(items, productId) ==> AddedLine(items, productId, line) == items + [line]
    ensures line in AddedLine(items, productId, line)
  {
    match FindProductIndex(items, productId)
    case Some(k) => assert AddedLine(items, productId, line)[k] == line;
    case None => assert AddedLine(items, productId, line)[|items|] == line;
  }

  /**
   * When the returned line is for the added product, an add never gives a
   * product a second line.
   */
  lemma AddedLineKeepsOneLinePerProduct(items: seq<CartLine>, productId: int, line: CartLine)
    requires OneLinePerProduct(items)
    requires LineProductId(line) == Some(productId)
    ensures OneLinePerProduct(AddedLine(items, productId, line))
  {
    var r := AddedLine(items, productId, line);
    match FindProductIndex(items, productId)
    case Some(k) =>
      forall i, j | 0 <= i < j < |r| && LineProductId(r[i]).Some? ensures LineProductId(r[i]) != LineProductId(r[j]) {
        if i == k {
          assert LineProductId(r[j]) == LineProductId(items[j]);
        } else if j == k {
          assert LineProductId(r[i]) == LineProductId(items[i]);
        }
      }
    case None =>
      forall i, j | 0 <= i < j < |r| && LineProductId(r[i]).Some? ensures LineProductId(r[i]) != LineProductId(r[j]) {
        if j == |items| {
          assert r[i] == items[i];
        }
      }
  }

  /** After an add the product is in the cart, with the returned line's quantity. */
  lemma AddedLineIsFound(items: seq<CartLine>, productId: int, line: CartLine)
    requires OneLinePerProduct(items)
    requires LineProductId(line) == Some(productId)
    ensures IsInCart(AddedLine(items, productId, line), productId)
    ensures ItemQuantity(AddedLine(items, productId, line), productId) == line.quantity
  {
    var r := AddedLine(items, productId, line);
    match FindProductIndex(items, productId)
    case Some(k) =>
      assert r[k] == line;
      forall j | 0 <= j < k ensures LineProductId(r[j]) != Some(productId) {
        assert r[j] == items[j];
      }
    case None =>
      assert r[|items|] == line;
      forall j | 0 <= j < |items| ensures LineProductId(r[j]) != Some(productId) {
        assert r[j] == items[j];
      }
  }

  /** Replacing by id touches exactly the lines with that id; with none, the list is unchanged. */
  lemma ReplaceByIdUnknownId(items: seq<CartLine>, cartItemId: int, line: CartLine)
    requires forall j :: 0 <= j < |items| ==> items[j].id != cartItemId
    ensures ReplaceById(items, cartItemId, line) == items
  {
  }

  /** Removing an id no line carries leaves the list as it was. */
  lemma {:induction false} RemoveByIdUnknownId(items: seq<CartLine>, cartItemId: int)
    requires forall j :: 0 <= j < |items| ==> items[j].id != cartItemId
    ensures RemoveById(items, cartItemId) == items
  {
    if items != [] {
      RemoveByIdUnknownId(items[1..], cartItemId);
    }
  }

  /**
   * Removing takes nothing that was not there and keeps every line with a
   * different id as often as it occurred.
   */
  lemma {:induction false} RemoveByIdMultiset(items: seq<CartLine>, cartItemId: int)
    ensures multiset(RemoveById(items, cartItemId)) <= multiset(items)
    ensures forall l: CartLine :: l.id != cartItemId ==> multiset(RemoveById(items, cartItemId))[l] == multiset(items)[l]
  {
    if items != [] {
      var tail := items[1..];
      RemoveByIdMultiset(tail, cartItemId);
      assert items == [items[0]] + tail;
      var mi := multiset(items);
      var mt := multiset(tail);
      assert mi == multiset{items[0]} + mt;
      if items[0].id != cartItemId {
        assert RemoveById(items, cartItemId) == [items[0]] + RemoveById(tail, cartItemId);
        assert multiset(RemoveById(items, cartItemId)) == multiset{items[0]} + multiset(RemoveById(tail, cartItemId));
      }
    }
  }

  /** The lines kept by a removal are exactly the lines of the list whose id differs. */
  lemma RemoveByIdMembers(items: seq<CartLine>, cartItemId: int, l: CartLine)
    ensures l in RemoveById(items, cartItemId) <==> l in items && l.id != cartItemId
  {
    RemoveByIdMultiset(items, cartItemId);
    var r := RemoveById(items, cartItemId);
    if l in r {
      assert multiset(r)[l] > 0;
      var k :| 0 <= k < |r| && r[k] == l;
      assert r[k].id != cartItemId;
    }
    if l in items && l.id != cartItemId {
      assert multiset(items)[l] > 0;
    }
  }

  /** Removing a line id drops that line's contribution from the count and total when ids are unique. */
  lemma {:induction false} RemoveByIdTotals(items: seq<CartLine>, k: nat)
    requires k < |items|
    requires forall j :: 0 <= j < |items| && j != k ==> items[j].id != items[k].id
    ensures CartTotal(RemoveById(items, items[k].id)) == CartTotal(items) - LineTotal(items[k])
    ensures ItemCount(RemoveById(items, items[k].id)) == ItemCount(items) - Quantity(items[k])
  {
    var id := items[k].id;
    var pre, post := items[..k], items[k + 1..];
    RemoveByIdDropsOne(items, k);
    calc {
      CartTotal(items);
      { assert items == (pre + [items[k]]) + post; CartTotalAppend(pre + [items[k]], post); }
      CartTotal(pre + [items[k]]) + CartTotal(post);
      { assert (pre + [items[k]])[..|pre|] == pre; }
      CartTotal(pre) + LineTotal(items[k]) + CartTotal(post);
      { CartTotalAppend(pre, post); }
      CartTotal(pre + post) + LineTotal(items[k]);
    }
    calc {
      ItemCount(items);
      { assert items == (pre + [items[k]]) + post; ItemCountAppend(pre + [items[k]], post); }
      ItemCount(pre + [items[k]]) + ItemCount(post);
      { assert (pre + [items[k]])[..|pre|] == pre; }
      ItemCount(pre) + Quantity(items[k]) + ItemCount(post);
      { ItemCountAppend(pre, post); }
      ItemCount(pre + post) + Quantity(items[k]);
    }
  }

  /** With unique ids, removing line `k`'s id leaves exactly the lines before and after it. */
  lemma {:induction false} RemoveByIdDropsOne(items: seq<CartLine>, k: nat)
    requires k < |items|
    requires forall j :: 0 <= j < |items| && j != k ==> items[j].id != items[k].id
    ensures RemoveById(items, items[k].id) == items[..k] + items[k + 1..]
  {
    var id := items[k].id;
    if k == 0 {
      assert forall j :: 0 <= j < |items[1..]| ==> items[1..][j] == items[j + 1];
      RemoveByIdUnknownId(items[1..], id);
    } else {
      var tail := items[1..];
      assert tail[k - 1] == items[k];
      assert forall j :: 0 <= j < |tail| && j != k - 1 ==> tail[j] == items[j + 1];
      RemoveByIdDropsOne(tail, k - 1);
      assert items[..k] + items[k + 1..] == [items[0]] + (tail[..k - 1] + tail[k..]);
    }
  }

  lemma {:induction false} RemoveByIdSplit(a: seq<CartLine>, b: seq<CartLine>, cartItemId: int)
    ensures RemoveById(a + b, cartItemId) == RemoveById(a, cartItemId) + RemoveById(b, cartItemId)
  {
    if a == [] {
      assert a + b == b;
    } else {
      assert (a + b)[0] == a[0];
      assert (a + b)[1..] == a[1..] + b;
      RemoveByIdSplit(a[1..], b, cartItemId);
    }
  }
}

/**
 * CartService.java over the cart-item table: each row is one user's
 * quantity of one product, and `addToCart` merges into an existing row
 * rather than adding a second one.
 */
module BackendCart {
  import opened Wrappers
  import opened Seqs
  import opened Entities
  import Int32

  /** Two rows of a well-formed table: different ids, and not the same user and product. */
  predicate DistinctLines(a: CartItem, b: CartItem) {
    a.id != b.id && !(a.userId == b.userId && a.productId == b.productId)
  }

  /**
   * The table's invariant: every id is below the next identity value, no id
   * repeats, a user has at most one row per product, and every quantity
   * fits in a Java `Integer`.
   */
  predicate WellFormed(rows: seq<CartItem>, nextId: int) {
    && (forall i :: 0 <= i < |rows| ==> rows[i].id < nextId && Int32.InRange(rows[i].quantity))
    && Pairwise(rows, DistinctLines)
  }

  /** `findByUser`: the user's rows, in table order. */
  function OfUser(rows: seq<CartItem>, userId: int): (r: seq<CartItem>)
    ensures forall x :: x in r <==> x in rows && x.userId == userId
  {
    Filter(rows, (x: CartItem) => x.userId == userId)
  }

  /** What `deleteByUser` leaves: every row of other users. */
  function WithoutUser(rows: seq<CartItem>, userId: int): (r: seq<CartItem>)
    ensures forall x :: x in r <==> x in rows && x.userId != userId
  {
    Filter(rows, (x: CartItem) => x.userId != userId)
  }

  /** What `deleteById` leaves: every row with another id. */
  function WithoutId(rows: seq<CartItem>, id: int): (r: seq<CartItem>)
    ensures forall x :: x in r <==> x in rows && x.id != id
  {
    Filter(rows, (x: CartItem) => x.id != id)
  }

  /** `findByUserAndProduct`: the position of the user's row for the product. */
  function FindLine(rows: seq<CartItem>, userId: int, productId: int): (r: Option<nat>)
    ensures r.Some? ==> r.value < |rows| && rows[r.value].userId == userId && rows[r.value].productId == productId
    ensures r.Some? ==> forall i :: 0 <= i < r.value ==> !(rows[i].userId == userId && rows[i].productId == productId)
    ensures r.None? ==> forall i :: 0 <= i < |rows| ==> !(rows[i].userId == userId && rows[i].productId == productId)
  {
    IndexWhere(rows, (x: CartItem) => x.userId == userId && x.productId == productId)
  }

  /** `findById`: the position of the row with that id. */
  function FindId(rows: seq<CartItem>, id: int): (r: Option<nat>)
    ensures r.Some? ==> r.value < |rows| && rows[r.value].id == id
    ensures r.None? ==> forall i :: 0 <= i < |rows| ==> rows[i].id != id
  {
    IndexWhere(rows, (x: CartItem) => x.id == id)
  }

  /**
   * The table after `addToCart(user, product, quantity)`: an existing row
   * takes the Java `Integer` sum of its quantity and `quantity`; otherwise a
   * row with id `freshId` is inserted.
   */
  function Added(rows: seq<CartItem>, userId: int, productId: int, quantity: int, freshId: int): seq<CartItem> {
    match FindLine(rows, userId, productId)
    case Some(i) => rows[i := rows[i].(quantity := Int32.Add(rows[i].quantity, quantity))]
    case None => rows + [CartItem(freshId, userId, productId, quantity)]
  }

  /** The table after `updateCartItem(id, quantity)`: the row with that id, if any, takes `quantity`. */
  function Updated(rows: seq<CartItem>, id: int, quantity: int): seq<CartItem> {
    match FindId(rows, id)
    case Some(i) => rows[i := rows[i].(quantity := quantity)]
    case None => rows
  }

  /** The quantity the (user, product) row has after an add: the old one plus `quantity`, or `quantity` for a new row. */
  function MergedQuantity(rows: seq<CartItem>, userId: int, productId: int, quantity: int): int {
    match FindLine(rows, userId, productId)
    case Some(i) => Int32.Add(rows[i].quantity, quantity)
    case None => quantity
  }

  /** Adding keeps the table well-formed; the next identity value moves only on an insert. */
  lemma AddedWellFormed(rows: seq<CartItem>, userId: int, productId: int, quantity: int, nextId: int)
    requires WellFormed(rows, nextId) && Int32.InRange(quantity)
    ensures WellFormed(Added(rows, userId, productId, quantity, nextId),
                       if FindLine(rows, userId, productId).Some? then nextId else nextId + 1)
  {
    var r := Added(rows, userId, productId, quantity, nextId);
    match FindLine(rows, userId, productId)
    case Some(i) =>
      forall a, b | 0 <= a < b < |r| ensures DistinctLines(r[a], r[b]) {
        assert DistinctLines(rows[a], rows[b]);
      }
    case None =>
      forall a, b | 0 <= a < b < |r| ensures DistinctLines(r[a], r[b]) {
        if b < |rows| {
          assert DistinctLines(rows[a], rows[b]);
        }
      }
  }

  /**
   * After an add the user has a row for the product, holding the merged
   * quantity, with the old row's id when there was one; every row for
   * another (user, product) pair is as it was.
   */
  lemma AddedLine(rows: seq<CartItem>, userId: int, productId: int, quantity: int, freshId: int)
    ensures var r := Added(rows, userId, productId, quantity, freshId);
      && FindLine(r, userId, productId).Some?
      && r[FindLine(r, userId, productId).value].quantity == MergedQuantity(rows, userId, productId, quantity)
      && r[FindLine(r, userId, productId).value].id
         == (match FindLine(rows, userId, productId) case Some(i) => rows[i].id case None => freshId)
      && (forall x :: x in r && !(x.userId == userId && x.productId == productId)
                  <==> x in rows && !(x.userId == userId && x.productId == productId))
      && |r| == (if FindLine(rows, userId, productId).Some? then |rows| else |rows| + 1)
  {
    var r := Added(rows, userId, productId, quantity, freshId);
    match FindLine(rows, userId, productId)
    case Some(i) =>
      assert r[i].userId == userId && r[i].productId == productId;
      assert forall k :: 0 <= k < i ==> r[k] == rows[k];
      assert FindLine(r, userId, productId) == Some(i);
      forall x | x in r && !(x.userId == userId && x.productId == productId)
        ensures x in rows
      {
        var k :| 0 <= k < |r| && r[k] == x;
        assert rows[k] == x;
      }
      forall x | x in rows && !(x.userId == userId && x.productId == productId)
        ensures x in r
      {
        var k :| 0 <= k < |rows| && rows[k] == x;
        assert r[k] == x;
      }
    case None =>
      assert r[|rows|] == CartItem(freshId, userId, productId, quantity);
      assert FindLine(r, userId, productId) == Some(|rows|);
  }

  /**
   * `updateCartItem` on a known id gives that row exactly `quantity` and
   * keeps its id, user and product; rows with other ids are as they were.
   * On an unknown id nothing changes.
   */
  lemma UpdatedLine(rows: seq<CartItem>, id: int, quantity: int)
    ensures FindId(rows, id).None? ==> Updated(rows, id, quantity) == rows
    ensures FindId(rows, id).Some? ==>
      var i := FindId(rows, id).value;
      var r := Updated(rows, id, quantity);
      |r| == |rows| && r[i] == CartItem(id, rows[i].userId, rows[i].productId, quantity)
    ensures forall x :: x in Updated(rows, id, quantity) && x.id != id <==> x in rows && x.id != id
  {
    var r := Updated(rows, id, quantity);
    if FindId(rows, id).Some? {
      var i := FindId(rows, id).value;
      forall x | x in r && x.id != id ensures x in rows {
        var k :| 0 <= k < |r| && r[k] == x;
        assert rows[k] == x;
      }
      forall x | x in rows && x.id != id ensures x in r {
        var k :| 0 <= k < |rows| && rows[k] == x;
        assert r[k] == x;
      }
    }
  }

  /** Updating a quantity keeps the table well-formed. */
  lemma UpdatedWellFormed(rows: seq<CartItem>, id: int, quantity: int, nextId: int)
    requires WellFormed(rows, nextId) && Int32.InRange(quantity)
    ensures WellFormed(Updated(rows, id, quantity), nextId)
  {
    var r := Updated(rows, id, quantity);
    forall a, b | 0 <= a < b < |r| ensures DistinctLines(r[a], r[b]) {
      assert DistinctLines(rows[a], rows[b]);
    }
  }

  /** Deleting rows keeps the table well-formed. */
  lemma FilteredWellFormed(rows: seq<CartItem>, keep: CartItem -> bool, nextId: int)
    requires WellFormed(rows, nextId)
    ensures WellFormed(Filter(rows, keep), nextId)
  {
    FilterPairwise(rows, keep, DistinctLines);
    var r := Filter(rows, keep);
    forall i | 0 <= i < |r| ensures r[i].id < nextId && Int32.InRange(r[i].quantity) {
      assert r[i] in rows;
    }
  }

  /** `clearCart` empties the user's cart and leaves every other user's cart exactly as it was, order included. */
  lemma {:induction false} ClearedCarts(rows: seq<CartItem>, userId: int, other: int)
    ensures OfUser(WithoutUser(rows, userId), userId) == []
    ensures other != userId ==> OfUser(WithoutUser(rows, userId), other) == OfUser(rows, other)
  {
    if rows != [] {
      ClearedCarts(rows[1..], userId, other);
      var head := if rows[0].userId != userId then [rows[0]] else [];
      assert WithoutUser(rows, userId) == head + WithoutUser(rows[1..], userId);
      FilterAppend(head, WithoutUser(rows[1..], userId), (x: CartItem) => x.userId == userId);
      FilterAppend(head, WithoutUser(rows[1..], userId), (x: CartItem) => x.userId == other);
    }
  }

  /** In a well-formed table a user's rows name pairwise different products. */
  lemma UserLinesDistinctProducts(rows: seq<CartItem>, userId: int, nextId: int)
    requires WellFormed(rows, nextId)
    ensures var lines := OfUser(rows, userId);
      forall i, j :: 0 <= i < j < |lines| ==> lines[i].productId != lines[j].productId
  {
    var keep := (x: CartItem) => x.userId == userId;
    FilterPairwise(rows, keep, DistinctLines);
    var lines := Filter(rows, keep);
    forall i, j | 0 <= i < j < |lines| ensures lines[i].productId != lines[j].productId {
      assert DistinctLines(lines[i], lines[j]);
      assert keep(lines[i]) && keep(lines[j]);
    }
  }

  /** The cart-item table and the service over it. */
  class CartService {
    /** The rows, in insertion order (the order `findByUser` returns them in). */
    var rows: seq<CartItem>
    /** The identity value the next insert receives. */
    var nextId: int

    predicate Valid()
      reads this
    {
      WellFormed(rows, nextId)
    }

    constructor ()
      ensures Valid() && rows == []
    {
      rows := [];
      nextId := 1;
    }

    /** `getCartItemsByUser`: exactly the user's rows. */
    function GetCartItemsByUser(userId: int): (r: seq<CartItem>)
      reads this
      ensures forall x :: x in r <==> x in rows && x.userId == userId
    {
      OfUser(rows, userId)
    }

    /**
     * `addToCart(user, product, quantity)`: raises the quantity of the
     * user's existing row for the product (Java `Integer` `+`, so it wraps
     * rather than failing), or inserts a row with exactly `quantity`. No bound
     * is placed on the quantity.
     */
    method AddToCart(userId: int, productId: int, quantity: int) returns (saved: CartItem)
      requires Valid() && Int32.InRange(quantity)
      modifies this
      ensures Valid()
      ensures rows == Added(old(rows), userId, productId, quantity, old(nextId))
      ensures nextId == if FindLine(old(rows), userId, productId).Some? then old(nextId) else old(nextId) + 1
      ensures saved in rows && saved.userId == userId && saved.productId == productId
      ensures saved.quantity == MergedQuantity(old(rows), userId, productId, quantity)
    {
      var existing := FindLine(rows, userId, productId);
      if existing.Some? {
        var cartItem := rows[existing.value];
        cartItem := cartItem.(quantity := Int32.Add(cartItem.quantity, quantity));
        rows := rows[existing.value := cartItem];
        saved := cartItem;
        assert rows[existing.value] == saved;
      } else {
        var cartItem := CartItem(nextId, userId, productId, quantity);
        rows := rows + [cartItem];
        nextId := nextId + 1;
        saved := cartItem;
        assert rows[|rows| - 1] == saved;
      }
      AddedWellFormed(old(rows), userId, productId, quantity, old(nextId));
    }

    /** `updateCartItem(id, quantity)`: `None` (Java `null`) and no change for an unknown id. */
    method UpdateCartItem(id: int, quantity: int) returns (saved: Option<CartItem>)
      requires Valid() && Int32.InRange(quantity)
      modifies this
      ensures Valid() && nextId == old(nextId)
      ensures rows == Updated(old(rows), id, quantity)
      ensures saved.None? <==> FindId(old(rows), id).None?
      ensures saved.Some? ==> saved.value in rows && saved.value.id == id && saved.value.quantity == quantity
    {
      var found := FindId(rows, id);
      if found.None? {
        return None;
      }
      var cartItem := rows[found.value].(quantity := quantity);
      rows := rows[found.value := cartItem];
      saved := Some(cartItem);
      assert rows[found.value] == cartItem;
      UpdatedWellFormed(old(rows), id, quantity, nextId);
    }

    /** `removeFromCart(id)`: deletes the row with that id and no other. */
    method RemoveFromCart(id: int)
      requires Valid()
      modifies this
      ensures Valid() && nextId == old(nextId)
      ensures rows == WithoutId(old(rows), id)
    {
      FilteredWellFormed(rows, (x: CartItem) => x.id != id, nextId);
      rows := WithoutId(rows, id);
    }

    /** `clearCart(user)`: deletes every row of the user and no row of anyone else. */
    method ClearCart(userId: int)
      requires Valid()
      modifies this
      ensures Valid() && nextId == old(nextId)
      ensures rows == WithoutUser(old(rows), userId)
    {
      FilteredWellFormed(rows, (x: CartItem) => x.userId != userId, nextId);
      rows := WithoutUser(rows, userId);
    }
  }
}

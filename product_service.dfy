/**
 * ProductService.java over the product table: stock updates, availability
 * and the name search, plus the repository pass-throughs the controllers
 * use.
 */
module BackendProducts {
  import opened Wrappers
  import opened Seqs
  import opened Entities
  import JsText
  import Int32

  /** Two rows of a well-formed table carry different ids. */
  predicate DistinctIds(a: Product, b: Product) {
    a.id != b.id
  }

  /** The table's invariant: ids below the next identity value and distinct, stock that fits a Java `Integer`. */
  predicate WellFormed(products: seq<Product>, nextId: int) {
    && (forall i :: 0 <= i < |products| ==> products[i].id < nextId && Int32.InRange(products[i].stockQuantity))
    && Pairwise(products, DistinctIds)
  }

  /** The position of the product with that id. */
  function FindProduct(products: seq<Product>, id: int): (r: Option<nat>)
    ensures r.Some? ==> r.value < |products| && products[r.value].id == id
    ensures r.Some? ==> forall k :: 0 <= k < r.value ==> products[k].id != id
    ensures r.None? ==> forall k :: 0 <= k < |products| ==> products[k].id != id
  {
    IndexWhere(products, (p: Product) => p.id == id)
  }

  /** `findById`. */
  function ProductById(products: seq<Product>, id: int): (r: Option<Product>)
    ensures r.Some? ==> r.value in products && r.value.id == id
    ensures r.None? ==> forall p :: p in products ==> p.id != id
  {
    match FindProduct(products, id)
    case Some(i) => Some(products[i])
    case None => None
  }

  /** The table after `updateStock(id, quantity)`: the product's stock minus `quantity`, as Java's `Integer` `-` computes it. */
  function StockUpdated(products: seq<Product>, id: int, quantity: int): seq<Product> {
    match FindProduct(products, id)
    case Some(i) => products[i := products[i].(stockQuantity := Int32.Sub(products[i].stockQuantity, quantity))]
    case None => products
  }

  /** The table after `save(product)`: a row with the same id is replaced; otherwise the product is inserted under `freshId`. */
  function Saved(products: seq<Product>, product: Product, freshId: int): seq<Product> {
    match FindProduct(products, product.id)
    case Some(i) => products[i := product]
    case None => products + [product.(id := freshId)]
  }

  /** The row `save(product)` hands back. */
  function SavedRow(products: seq<Product>, product: Product, freshId: int): Product {
    if FindProduct(products, product.id).Some? then product else product.(id := freshId)
  }

  /** What `deleteById` leaves. */
  function WithoutProduct(products: seq<Product>, id: int): (r: seq<Product>)
    ensures forall p :: p in r <==> p in products && p.id != id
  {
    Filter(products, (p: Product) => p.id != id)
  }

  /** `findByStockQuantityGreaterThan(0)`: exactly the products in stock. */
  function Available(products: seq<Product>): (r: seq<Product>)
    ensures forall p :: p in r <==> p in products && p.stockQuantity > 0
  {
    Filter(products, (p: Product) => p.stockQuantity > 0)
  }

  /** `findByNameContainingIgnoreCase(keyword)`: exactly the products whose name contains the keyword, ignoring case. */
  function NameSearch(products: seq<Product>, keyword: string): (r: seq<Product>)
    ensures forall p :: p in r <==> p in products && JsText.Contains(JsText.ToLower(p.name), JsText.ToLower(keyword))
  {
    Filter(products, (p: Product) => JsText.Contains(JsText.ToLower(p.name), JsText.ToLower(keyword)))
  }

  /** `findByCategory(category)`. */
  function InCategory(products: seq<Product>, category: string): (r: seq<Product>)
    ensures forall p :: p in r <==> p in products && p.category == category
  {
    Filter(products, (p: Product) => p.category == category)
  }

  /** `findByBrand(brand)`. */
  function OfBrand(products: seq<Product>, brand: string): (r: seq<Product>)
    ensures forall p :: p in r <==> p in products && p.brand == brand
  {
    Filter(products, (p: Product) => p.brand == brand)
  }

  /** `findBySeller(seller)`: the products whose seller row has that id. */
  function OfSeller(products: seq<Product>, sellerId: int): (r: seq<Product>)
    ensures forall p :: p in r <==> p in products && p.seller.Some? && p.seller.value.id == sellerId
  {
    Filter(products, (p: Product) => p.seller.Some? && p.seller.value.id == sellerId)
  }

  /**
   * `updateStock` subtracts exactly `quantity` from the targeted product,
   * with no floor at zero, and changes no other product; an unknown id
   * changes nothing.
   */
  lemma StockUpdatedEffect(products: seq<Product>, id: int, quantity: int)
    ensures FindProduct(products, id).None? ==> StockUpdated(products, id, quantity) == products
    ensures var r := StockUpdated(products, id, quantity);
      && |r| == |products|
      && forall k :: 0 <= k < |products| ==>
           r[k] == if Some(k) == FindProduct(products, id)
                   then products[k].(stockQuantity := Int32.Sub(products[k].stockQuantity, quantity))
                   else products[k]
  {
  }

  /** The stock can go negative: ordering 5 of a product with 2 in stock leaves -3. */
  lemma StockCanGoNegative(p: Product)
    requires p.stockQuantity == 2
    ensures StockUpdated([p], p.id, 5) == [p.(stockQuantity := -3)]
  {
    assert FindProduct([p], p.id) == Some(0);
  }

  /** A stock update changes what `findById` returns only for the targeted id, and only in its stock. */
  lemma ProductByIdAfterStockUpdate(products: seq<Product>, id: int, quantity: int, other: int)
    ensures var before := ProductById(products, other);
      ProductById(StockUpdated(products, id, quantity), other)
      == if other == id && before.Some?
         then Some(before.value.(stockQuantity := Int32.Sub(before.value.stockQuantity, quantity)))
         else before
  {
    var r := StockUpdated(products, id, quantity);
    assert |r| == |products| && forall k :: 0 <= k < |r| ==> r[k].id == products[k].id;
    match FindProduct(products, other)
    case Some(j) =>
      assert FindProduct(r, other) == Some(j);
    case None =>
      assert FindProduct(r, other) == None;
  }

  /** A stock update keeps the table well-formed. */
  lemma StockUpdatedWellFormed(products: seq<Product>, id: int, quantity: int, nextId: int)
    requires WellFormed(products, nextId)
    ensures WellFormed(StockUpdated(products, id, quantity), nextId)
  {
    var r := StockUpdated(products, id, quantity);
    forall a, b | 0 <= a < b < |r| ensures DistinctIds(r[a], r[b]) {
      assert DistinctIds(products[a], products[b]);
    }
  }

  /**
   * Saving a product whose id is in the table replaces exactly that row;
   * saving any other product appends it under the fresh id. The table stays
   * well-formed.
   */
  lemma SavedEffect(products: seq<Product>, product: Product, nextId: int)
    requires WellFormed(products, nextId) && Int32.InRange(product.stockQuantity)
    ensures var r := Saved(products, product, nextId);
      && WellFormed(r, if FindProduct(products, product.id).Some? then nextId else nextId + 1)
      && ProductById(r, SavedRow(products, product, nextId).id) == Some(SavedRow(products, product, nextId))
      && (forall p :: p in products && p.id != SavedRow(products, product, nextId).id ==> p in r)
  {
    match FindProduct(products, product.id)
    case Some(i) => SavedReplaces(products, product, nextId, i);
    case None => SavedAppends(products, product, nextId);
  }

  /** The first row with the id is the one found. */
  lemma FindProductAt(products: seq<Product>, id: int, i: nat)
    requires i < |products| && products[i].id == id
    requires forall k :: 0 <= k < i ==> products[k].id != id
    ensures FindProduct(products, id) == Some(i)
  {
  }

  /** Saving over row `i`, the one with the product's id. */
  lemma SavedReplaces(products: seq<Product>, product: Product, nextId: int, i: nat)
    requires WellFormed(products, nextId) && Int32.InRange(product.stockQuantity)
    requires FindProduct(products, product.id) == Some(i)
    ensures var r := products[i := product];
      && WellFormed(r, nextId)
      && ProductById(r, product.id) == Some(product)
      && (forall p :: p in products && p.id != product.id ==> p in r)
  {
    var r := products[i := product];
    forall a, b | 0 <= a < b < |r| ensures DistinctIds(r[a], r[b]) {
      assert DistinctIds(products[a], products[b]);
    }
    assert forall k :: 0 <= k < i ==> r[k] == products[k];
    FindProductAt(r, product.id, i);
    forall p | p in products && p.id != product.id ensures p in r {
      var k :| 0 <= k < |products| && products[k] == p;
      assert r[k] == p;
    }
  }

  /** Saving a product whose id no row has: it is appended under the fresh id. */
  lemma SavedAppends(products: seq<Product>, product: Product, nextId: int)
    requires WellFormed(products, nextId) && Int32.InRange(product.stockQuantity)
    requires FindProduct(products, product.id).None?
    ensures var r := products + [product.(id := nextId)];
      && WellFormed(r, nextId + 1)
      && ProductById(r, nextId) == Some(product.(id := nextId))
      && (forall p :: p in products ==> p in r)
  {
    var r := products + [product.(id := nextId)];
    forall a, b | 0 <= a < b < |r| ensures DistinctIds(r[a], r[b]) {
      if b < |products| {
        assert DistinctIds(products[a], products[b]);
      }
    }
    assert forall k :: 0 <= k < |products| ==> r[k] == products[k] && r[k].id < nextId;
    FindProductAt(r, nextId, |products|);
  }

  /** Deleting keeps the table well-formed. */
  lemma WithoutProductWellFormed(products: seq<Product>, id: int, nextId: int)
    requires WellFormed(products, nextId)
    ensures WellFormed(WithoutProduct(products, id), nextId)
  {
    FilterPairwise(products, (p: Product) => p.id != id, DistinctIds);
    var r := WithoutProduct(products, id);
    forall i | 0 <= i < |r| ensures r[i].id < nextId && Int32.InRange(r[i].stockQuantity) {
      assert r[i] in products;
    }
  }

  /** The product table and the service over it. */
  class ProductService {
    var products: seq<Product>
    /** The identity value the next insert receives. */
    var nextId: int

    predicate Valid()
      reads this
    {
      WellFormed(products, nextId)
    }

    constructor ()
      ensures Valid() && products == []
    {
      products := [];
      nextId := 1;
    }

    /** `getProductById`. */
    function GetProductById(id: int): (r: Option<Product>)
      reads this
      ensures r.Some? ==> r.value in products && r.value.id == id
      ensures r.None? ==> forall p :: p in products ==> p.id != id
    {
      ProductById(products, id)
    }

    /** `getAvailableProducts`: exactly the products with stock above zero. */
    function GetAvailableProducts(): (r: seq<Product>)
      reads this
      ensures forall p :: p in r <==> p in products && p.stockQuantity > 0
    {
      Available(products)
    }

    /** `searchProducts(keyword)`: the products whose name contains `keyword`, ignoring case. */
    function SearchProducts(keyword: string): (r: seq<Product>)
      reads this
      ensures forall p :: p in r <==> p in products && JsText.Contains(JsText.ToLower(p.name), JsText.ToLower(keyword))
    {
      NameSearch(products, keyword)
    }

    /** `updateStock(id, quantity)`: no floor at zero; an unknown id changes nothing. */
    method UpdateStock(id: int, quantity: int)
      requires Valid()
      modifies this
      ensures Valid() && nextId == old(nextId)
      ensures products == StockUpdated(old(products), id, quantity)
    {
      var found := FindProduct(products, id);
      if found.Some? {
        var product := products[found.value];
        product := product.(stockQuantity := Int32.Sub(product.stockQuantity, quantity));
        products := products[found.value := product];
      }
      StockUpdatedWellFormed(old(products), id, quantity, nextId);
    }

    /** `createProduct` and `updateProduct`: `save`, which replaces a row with the same id or inserts a new row. */
    method Save(product: Product) returns (saved: Product)
      requires Valid() && Int32.InRange(product.stockQuantity)
      modifies this
      ensures Valid()
      ensures products == Saved(old(products), product, old(nextId))
      ensures saved == SavedRow(old(products), product, old(nextId))
      ensures nextId == if FindProduct(old(products), product.id).Some? then old(nextId) else old(nextId) + 1
    {
      SavedEffect(products, product, nextId);
      var found := FindProduct(products, product.id);
      if found.Some? {
        products := products[found.value := product];
        saved := product;
      } else {
        saved := product.(id := nextId);
        products := products + [saved];
        nextId := nextId + 1;
      }
    }

    /** `deleteProduct(id)`. */
    method DeleteProduct(id: int)
      requires Valid()
      modifies this
      ensures Valid() && nextId == old(nextId)
      ensures products == WithoutProduct(old(products), id)
    {
      WithoutProductWellFormed(products, id, nextId);
      products := WithoutProduct(products, id);
    }
  }
}

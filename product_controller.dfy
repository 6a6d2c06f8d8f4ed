/**
 * ProductController.java: the product endpoints that branch, over the
 * product table and the sellers table. A product's `seller` is the seller
 * row as it was attached.
 */
module ProductController {
  import opened Wrappers
  import opened Entities
  import opened Http
  import BackendAccounts
  import BackendProducts
  import Int32

  /** `getProductById(id)`: the product, or 404. */
  function GetProductById(catalog: BackendProducts.ProductService, id: int): (r: Reply<Product>)
    reads catalog
    ensures r.Ok? || r.NotFound?
    ensures r.Ok? ==> r.body in catalog.products && r.body.id == id
    ensures r.NotFound? <==> forall p :: p in catalog.products ==> p.id != id
  {
    match catalog.GetProductById(id)
    case Some(p) => Ok(p)
    case None => NotFound
  }

  /** `getProductsBySeller(sellerId)`: 404 for an unknown seller, else exactly that seller's products. */
  function GetProductsBySeller(sellers: BackendAccounts.AccountService, catalog: BackendProducts.ProductService,
                               sellerId: int): (r: Reply<seq<Product>>)
    reads sellers, catalog
    ensures r.Ok? || r.NotFound?
    ensures r.NotFound? <==> sellers.GetById(sellerId).None?
    ensures r.Ok? ==> forall p :: p in r.body <==> p in catalog.products && p.seller.Some? && p.seller.value.id == sellerId
  {
    if sellers.GetById(sellerId).None? then NotFound
    else Ok(BackendProducts.OfSeller(catalog.products, sellerId))
  }

  /**
   * `createProduct(product, sellerId)`: a 400 with no body, and nothing
   * stored, for an unknown seller; otherwise the seller row is attached and
   * the product saved. Like every `save`, a body whose id is already in
   * the table replaces that row.
   */
  method CreateProduct(sellers: BackendAccounts.AccountService, catalog: BackendProducts.ProductService,
                       sent: Product, sellerId: int) returns (reply: Reply<Product>)
    requires catalog.Valid() && Int32.InRange(sent.stockQuantity)
    modifies catalog
    ensures catalog.Valid()
    ensures sellers.GetById(sellerId).None? ==>
              reply == BadRequest(None) && catalog.products == old(catalog.products) && catalog.nextId == old(catalog.nextId)
    ensures sellers.GetById(sellerId).Some? ==>
              var owned := sent.(seller := sellers.GetById(sellerId));
              && catalog.products == BackendProducts.Saved(old(catalog.products), owned, old(catalog.nextId))
              && reply == Ok(BackendProducts.SavedRow(old(catalog.products), owned, old(catalog.nextId)))
              && reply.body.seller.Some? && reply.body.seller.value.id == sellerId
  {
    var seller := sellers.GetById(sellerId);
    if seller.None? {
      return BadRequest(None);
    }
    var created := catalog.Save(sent.(seller := seller));
    reply := Ok(created);
  }

  /** A created product is listed among its seller's products. */
  lemma CreatedProductListed(products: seq<Product>, nextId: int, sent: Product, seller: Account)
    requires BackendProducts.WellFormed(products, nextId) && Int32.InRange(sent.stockQuantity)
    ensures var owned := sent.(seller := Some(seller));
      BackendProducts.SavedRow(products, owned, nextId)
      in BackendProducts.OfSeller(BackendProducts.Saved(products, owned, nextId), seller.id)
  {
    var owned := sent.(seller := Some(seller));
    BackendProducts.SavedEffect(products, owned, nextId);
  }

  /**
   * `updateProduct(id, product)`: 404 for a missing product; otherwise the
   * body is saved under the path id with the stored product's seller.
   */
  method UpdateProduct(catalog: BackendProducts.ProductService, id: int, sent: Product) returns (reply: Reply<Product>)
    requires catalog.Valid() && Int32.InRange(sent.stockQuantity)
    modifies catalog
    ensures catalog.Valid() && catalog.nextId == old(catalog.nextId)
    ensures BackendProducts.ProductById(old(catalog.products), id).None? ==>
              reply == NotFound && catalog.products == old(catalog.products)
    ensures BackendProducts.ProductById(old(catalog.products), id).Some? ==>
              var updated := sent.(id := id, seller := BackendProducts.ProductById(old(catalog.products), id).value.seller);
              && catalog.products == BackendProducts.Saved(old(catalog.products), updated, old(catalog.nextId))
              && reply == Ok(updated)
  {
    var existing := catalog.GetProductById(id);
    if existing.None? {
      return NotFound;
    }
    var updated := catalog.Save(sent.(id := id, seller := existing.value.seller));
    reply := Ok(updated);
  }

  /**
   * An update never changes ownership: afterwards the product with the
   * path id is the body with the old seller, every other product is still
   * there, and the table stays well-formed.
   */
  lemma UpdateKeepsOwner(products: seq<Product>, nextId: int, id: int, sent: Product)
    requires BackendProducts.WellFormed(products, nextId) && Int32.InRange(sent.stockQuantity)
    requires BackendProducts.ProductById(products, id).Some?
    ensures var before := BackendProducts.ProductById(products, id).value;
      var r := BackendProducts.Saved(products, sent.(id := id, seller := before.seller), nextId);
      && BackendProducts.WellFormed(r, nextId)
      && BackendProducts.ProductById(r, id) == Some(sent.(id := id, seller := before.seller))
      && BackendProducts.ProductById(r, id).value.seller == before.seller
      && forall p :: p in products && p.id != id ==> p in r
  {
    var before := BackendProducts.ProductById(products, id).value;
    BackendProducts.SavedEffect(products, sent.(id := id, seller := before.seller), nextId);
  }

  /** `deleteProduct(id)`: always 204, whether or not the product existed. */
  method DeleteProduct(catalog: BackendProducts.ProductService, id: int) returns (reply: Reply<Product>)
    requires catalog.Valid()
    modifies catalog
    ensures catalog.Valid() && catalog.nextId == old(catalog.nextId)
    ensures forall p :: p in catalog.products <==> p in old(catalog.products) && p.id != id
    ensures reply == NoContent
  {
    catalog.DeleteProduct(id);
    reply := NoContent;
  }
}

/**
 * The product catalogue page (Products.jsx): the filter over the fetched
 * products, the sort by the selected key and direction, the category list,
 * the filter reset and the add-to-cart gate.
 */
module ProductsPage {
  import opened Wrappers
  import opened JsText
  import Sorting
  import SessionUser
  import opened ProductView

  /** A price-bound input: empty, a number, or text that `parseFloat` turns into NaN. */
  datatype PriceInput = Empty | Number(value: int) | NotANumber

  datatype SortKey = ByName | ByPrice | ByStock | ByCategory

  datatype Filters = Filters(
    searchTerm: string,
    selectedCategory: string,
    minPrice: PriceInput,
    maxPrice: PriceInput,
    sortBy: SortKey,
    sortOrder: string,
    showOutOfStock: bool)

  /** The state `clearFilters` restores, which is also the initial state. */
  const Defaults := Filters("", "", Empty, Empty, ByName, "asc", true)

  /** Case-insensitive substring search on name or description. */
  predicate MatchesSearch(p: Product, term: string) {
    Contains(ToLower(p.name), ToLower(term)) || Contains(ToLower(p.description), ToLower(term))
  }

  predicate MatchesCategory(p: Product, category: string) {
    category == "" || p.category == category
  }

  /** `min === '' || price >= parseFloat(min)`; a comparison with NaN is false. */
  predicate AboveMin(p: Product, min: PriceInput) {
    match min
    case Empty => true
    case Number(v) => p.price >= v
    case NotANumber => false
  }

  predicate BelowMax(p: Product, max: PriceInput) {
    match max
    case Empty => true
    case Number(v) => p.price <= v
    case NotANumber => false
  }

  /** The predicate of `products.filter(...)`. */
  predicate Keep(f: Filters, p: Product) {
    && MatchesSearch(p, f.searchTerm)
    && MatchesCategory(p, f.selectedCategory)
    && AboveMin(p, f.minPrice)
    && BelowMax(p, f.maxPrice)
    && (f.showOutOfStock || p.stockQuantity > 0)
  }

  /** The kept products, in their fetched order. */
  function Filtered(products: seq<Product>, f: Filters): (r: seq<Product>)
    ensures |r| <= |products|
    ensures forall p :: p in r <==> p in products && Keep(f, p)
    ensures multiset(r) <= multiset(products)
  {
    if products == [] then []
    else
      assert products == [products[0]] + products[1..];
      var rest := Filtered(products[1..], f);
      if Keep(f, products[0]) then [products[0]] + rest else rest
  }

  /** The sort key's order in the chosen direction: ascending for "asc", descending otherwise. */
  predicate KeyLe(key: SortKey, order: string, a: Product, b: Product) {
    if order == "asc" then !KeyGreater(key, a, b) else !KeyGreater(key, b, a)
  }

  /** `aValue > bValue`: numbers for price and stock, lower-cased strings for name and category. */
  predicate KeyGreater(key: SortKey, a: Product, b: Product) {
    match key
    case ByName => StrLess(ToLower(b.name), ToLower(a.name))
    case ByCategory => StrLess(ToLower(b.category), ToLower(a.category))
    case ByPrice => a.price > b.price
    case ByStock => a.stockQuantity > b.stockQuantity
  }

  /** No key is greater than itself, and of two products one key is never greater than the other in both directions (transitively). */
  lemma KeyGreaterStrictOrder(key: SortKey, a: Product, b: Product, c: Product)
    ensures !KeyGreater(key, a, a)
    ensures KeyGreater(key, a, b) && KeyGreater(key, b, c) ==> KeyGreater(key, a, c)
    ensures !KeyGreater(key, a, b) && !KeyGreater(key, b, a) && KeyGreater(key, c, a) ==> KeyGreater(key, c, b)
    ensures !KeyGreater(key, a, b) && !KeyGreater(key, b, a) && KeyGreater(key, a, c) ==> KeyGreater(key, b, c)
  {
    match key
    case ByName =>
      StrOrderFacts(ToLower(a.name), ToLower(b.name), ToLower(c.name));
    case ByCategory =>
      StrOrderFacts(ToLower(a.category), ToLower(b.category), ToLower(c.category));
    case ByPrice =>
    case ByStock =>
  }

  /** `StrLess` is a strict total order, so "neither is less" means equal. */
  lemma StrOrderFacts(x: string, y: string, z: string)
    ensures !StrLess(x, x)
    ensures StrLess(y, x) && StrLess(z, y) ==> StrLess(z, x)
    ensures !StrLess(y, x) && !StrLess(x, y) ==> x == y
  {
    StrLessIrreflexive(x);
    if StrLess(y, x) && StrLess(z, y) {
      StrLessTransitive(z, y, x);
    }
    if x != y {
      StrLessTotal(x, y);
    }
  }

  /** The comparator's order is total and transitive for every key and direction. */
  lemma KeyLeTotalPreorder(key: SortKey, order: string)
    ensures Sorting.TotalPreorder((a: Product, b: Product) => KeyLe(key, order, a, b))
  {
    var le := (a: Product, b: Product) => KeyLe(key, order, a, b);
    forall a: Product, b: Product ensures le(a, b) || le(b, a) {
      KeyGreaterStrictOrder(key, a, b, a);
      KeyGreaterStrictOrder(key, b, a, b);
    }
    forall a: Product, b: Product, c: Product | le(a, b) && le(b, c) ensures le(a, c) {
      KeyGreaterStrictOrder(key, a, b, c);
      KeyGreaterStrictOrder(key, c, b, a);
      KeyGreaterStrictOrder(key, a, c, b);
      KeyGreaterStrictOrder(key, b, c, a);
      KeyGreaterStrictOrder(key, c, a, b);
      KeyGreaterStrictOrder(key, b, a, c);
      KeyGreaterTransitiveLe(key, order, a, b, c);
    }
  }

  lemma KeyGreaterTransitiveLe(key: SortKey, order: string, a: Product, b: Product, c: Product)
    requires KeyLe(key, order, a, b) && KeyLe(key, order, b, c)
    ensures KeyLe(key, order, a, c)
  {
    if order == "asc" {
      NotGreaterTransitive(key, a, b, c);
    } else {
      NotGreaterTransitive(key, c, b, a);
    }
  }

  /** `!(a > b)` and `!(b > c)` give `!(a > c)`. */
  lemma NotGreaterTransitive(key: SortKey, a: Product, b: Product, c: Product)
    requires !KeyGreater(key, a, b) && !KeyGreater(key, b, c)
    ensures !KeyGreater(key, a, c)
  {
    match key
    case ByName =>
      NotLessTransitive(ToLower(a.name), ToLower(b.name), ToLower(c.name));
    case ByCategory =>
      NotLessTransitive(ToLower(a.category), ToLower(b.category), ToLower(c.category));
    case ByPrice =>
    case ByStock =>
  }

  lemma NotLessTransitive(x: string, y: string, z: string)
    requires !StrLess(y, x) && !StrLess(z, y)
    ensures !StrLess(z, x)
  {
    if StrLess(z, x) {
      if x != y {
        StrLessTotal(x, y);
        StrLessTransitive(z, x, y);
      }
    }
  }

  /** `filteredProducts`: the kept products, sorted by the selected key and direction. */
  function Visible(products: seq<Product>, f: Filters): seq<Product> {
    Sorting.SortBy(Filtered(products, f), (a: Product, b: Product) => KeyLe(f.sortBy, f.sortOrder, a, b))
  }

  /**
   * The visible list is a permutation of the kept products, and it is
   * ordered by the selected key in the selected direction.
   */
  lemma VisibleIsSortedFilter(products: seq<Product>, f: Filters)
    ensures multiset(Visible(products, f)) == multiset(Filtered(products, f))
    ensures forall p :: p in Visible(products, f) <==> p in products && Keep(f, p)
    ensures forall i, j :: 0 <= i < j < |Visible(products, f)| ==>
              KeyLe(f.sortBy, f.sortOrder, Visible(products, f)[i], Visible(products, f)[j])
  {
    var le := (a: Product, b: Product) => KeyLe(f.sortBy, f.sortOrder, a, b);
    KeyLeTotalPreorder(f.sortBy, f.sortOrder);
    Sorting.SortBySorted(Filtered(products, f), le);
    var v := Visible(products, f);
    forall p ensures p in v <==> p in Filtered(products, f) {
      assert p in v <==> p in multiset(v);
    }
  }

  /** Sorting by price ascending puts cheaper products first; descending puts them last. */
  lemma VisibleByPrice(products: seq<Product>, f: Filters, i: nat, j: nat)
    requires f.sortBy == ByPrice
    requires i < j < |Visible(products, f)|
    ensures f.sortOrder == "asc" ==> Visible(products, f)[i].price <= Visible(products, f)[j].price
    ensures f.sortOrder != "asc" ==> Visible(products, f)[i].price >= Visible(products, f)[j].price
  {
    VisibleIsSortedFilter(products, f);
  }

  /** Sorting by name ascending orders the lower-cased names. */
  lemma VisibleByName(products: seq<Product>, f: Filters, i: nat, j: nat)
    requires f.sortBy == ByName && f.sortOrder == "asc"
    requires i < j < |Visible(products, f)|
    ensures !StrLess(ToLower(Visible(products, f)[j].name), ToLower(Visible(products, f)[i].name))
  {
    VisibleIsSortedFilter(products, f);
  }

  /** The empty search term matches every product. */
  lemma EmptySearchMatchesAll(p: Product)
    ensures MatchesSearch(p, "")
  {
    ContainsEmpty(ToLower(p.name));
  }

  /** With out-of-stock products hidden, nothing with a stock of 0 or less is visible. */
  lemma HiddenOutOfStock(products: seq<Product>, f: Filters, p: Product)
    requires !f.showOutOfStock && p.stockQuantity <= 0
    ensures p !in Visible(products, f)
  {
    VisibleIsSortedFilter(products, f);
  }

  /** Under the defaults `clearFilters` restores, every product is kept. */
  lemma {:induction false} DefaultsKeepEverything(products: seq<Product>)
    ensures Filtered(products, Defaults) == products
  {
    if products != [] {
      EmptySearchMatchesAll(products[0]);
      assert Keep(Defaults, products[0]);
      DefaultsKeepEverything(products[1..]);
      assert products == [products[0]] + products[1..];
    }
  }

  /** `clearFilters`: every filter back to its default. */
  function ClearFilters(f: Filters): (r: Filters)
    ensures r == Defaults
    ensures forall products: seq<Product> :: multiset(Visible(products, r)) == multiset(products)
  {
    forall products: seq<Product> ensures multiset(Visible(products, Defaults)) == multiset(products) {
      DefaultsKeepEverything(products);
    }
    Defaults
  }

  /** `[...new Set(products.map(p => p.category))]`: each category once, in order of first appearance. */
  function Categories(products: seq<Product>): (r: seq<string>)
    ensures forall c :: c in r <==> exists p :: p in products && p.category == c
    ensures forall i, j :: 0 <= i < j < |r| ==> r[i] != r[j]
  {
    if products == [] then []
    else
      var last := products[|products| - 1];
      var front := products[..|products| - 1];
      assert products == front + [last];
      var seen := Categories(front);
      if last.category in seen then seen else seen + [last.category]
  }

  /** The insertion order of a `Set`: a category already listed keeps its place. */
  lemma CategoriesFirstOccurrence(products: seq<Product>, p: Product)
    requires p.category in Categories(products)
    ensures Categories(products + [p]) == Categories(products)
  {
    assert (products + [p])[..|products|] == products;
  }

  /** `handleAddToCart`: only a signed-in customer adds, and always one unit. */
  function HandleAddToCart(user: Option<SessionUser.User>, p: Product): (r: Option<AddRequest>)
    ensures r.Some? <==> SessionUser.IsCustomer(user)
    ensures r.Some? ==> r.value == AddRequest(p, 1)
  {
    if user.None? then None
    else if user.value.role != Some("USER") then None
    else Some(AddRequest(p, 1))
  }

  /** `disabled={stockQuantity === 0 || !user || user.role !== 'USER'}`. */
  predicate AddButtonDisabled(user: Option<SessionUser.User>, p: Product) {
    p.stockQuantity == 0 || !SessionUser.IsCustomer(user)
  }

  /** An enabled add button always leads to a one-unit add. */
  lemma EnabledButtonAdds(user: Option<SessionUser.User>, p: Product)
    requires !AddButtonDisabled(user, p)
    ensures HandleAddToCart(user, p) == Some(AddRequest(p, 1))
  {
  }

  /** `fetchProducts`: the response replaces the list; a failure keeps it. */
  function AfterFetch(current: seq<Product>, reply: Outcome<seq<Product>>): (r: seq<Product>)
    ensures reply.Returned? ==> r == reply.value
    ensures reply.Threw? ==> r == current
  {
    match reply
    case Returned(data) => data
    case Threw => current
  }
}

/** The products app: categories owned by a user, products in a category, and one view
    record per (product, viewer). Writes are guarded by the category owner; deletes
    cascade from category to product to view. */
module Products {
  import opened Common
  import opened Tables
  import opened Sorting

  datatype Category = Category(id: Id, business: Id, name: string, description: string, createdAt: Time)

  /** `price` is a decimal with two places, held as a whole number of hundredths. */
  datatype Product = Product(
    id: Id,
    category: Id,
    name: string,
    description: string,
    price: int,
    isFeatured: bool,
    stock: nat,
    createdAt: Time)

  datatype ProductView = ProductView(id: Id, product: Id, viewer: Id, viewedAt: Time)

  /** `DecimalField(max_digits=10, decimal_places=2)`: at most ten digits in all. */
  const PriceLimit: int := 10_000_000_000

  predicate PriceOk(price: int) {
    -PriceLimit < price < PriceLimit
  }

  // Keys of the uniqueness constraints.
  function CategoryId(c: Category): Id { c.id }
  function CategoryKey(c: Category): (Id, string) { (c.business, c.name) }
  function ProductId(p: Product): Id { p.id }
  function ViewId(v: ProductView): Id { v.id }
  function ViewKey(v: ProductView): (Id, Id) { (v.product, v.viewer) }

  // The row selections of the cascades.
  function OutsideCategory(gone: Id): Product -> bool { (p: Product) => p.category != gone }
  function OfProducts(keep: set<Id>): ProductView -> bool { (v: ProductView) => v.product in keep }
  function NotOfProduct(gone: Id): ProductView -> bool { (v: ProductView) => v.product != gone }

  function CategoryIds(cs: seq<Category>): set<Id> {
    set c | c in cs :: c.id
  }

  function ProductIds(ps: seq<Product>): set<Id> {
    set p | p in ps :: p.id
  }

  // ---------------------------------------------------------------------------
  // Lookups and queries
  // ---------------------------------------------------------------------------

  function CategoryIndex(cs: seq<Category>, pk: Id): (r: Option<nat>)
    ensures r.Some? ==> r.value < |cs| && cs[r.value].id == pk
    ensures r.None? ==> pk !in CategoryIds(cs)
  {
    FindFirst(cs, (c: Category) => c.id == pk)
  }

  function ProductIndex(ps: seq<Product>, pk: Id): (r: Option<nat>)
    ensures r.Some? ==> r.value < |ps| && ps[r.value].id == pk
    ensures r.None? ==> pk !in ProductIds(ps)
  {
    FindFirst(ps, (p: Product) => p.id == pk)
  }

  /** The owner of a product: the business of its category. */
  function OwnerOf(cs: seq<Category>, p: Product): Option<Id> {
    match CategoryIndex(cs, p.category)
    case None => None
    case Some(j) => Some(cs[j].business)
  }

  predicate CategoryNameLe(a: Category, b: Category) {
    LexLe(a.name, b.name)
  }

  /** `ProductCategory.Meta.ordering = ['name']`. */
  function CategoriesByName(cs: seq<Category>): (r: seq<Category>)
    ensures multiset(r) == multiset(cs)
    ensures forall i, j :: 0 <= i < j < |r| ==> LexLe(r[i].name, r[j].name)
  {
    assert Total(CategoryNameLe) by {
      forall a: Category, b: Category ensures CategoryNameLe(a, b) || CategoryNameLe(b, a) {
        LexLeTotal(a.name, b.name);
      }
    }
    assert Transitive(CategoryNameLe) by {
      forall a: Category, b: Category, c: Category | CategoryNameLe(a, b) && CategoryNameLe(b, c)
        ensures CategoryNameLe(a, c)
      {
        LexLeTransitive(a.name, b.name, c.name);
      }
    }
    SortBySorted(cs, CategoryNameLe);
    SortBy(cs, CategoryNameLe)
  }

  /** `ProductViewListView`: only the views of the given product, all of them. */
  function ViewsOf(vs: seq<ProductView>, product: Id): (r: seq<ProductView>)
    ensures forall v :: v in r <==> v in vs && v.product == product
    ensures multiset(r) <= multiset(vs)
  {
    Filter(vs, (v: ProductView) => v.product == product)
  }

  predicate ViewTaken(vs: seq<ProductView>, product: Id, viewer: Id) {
    exists k :: 0 <= k < |vs| && vs[k].product == product && vs[k].viewer == viewer
  }

  // ---------------------------------------------------------------------------
  // Serializer checks and partial updates
  // ---------------------------------------------------------------------------

  /** What `ProductSerializer` accepts for a new product: an existing category, a name, a
      price within the decimal's digits and, when sent, a stock that is not negative. */
  predicate ProductInputOk(cs: seq<Category>, category: Id, name: string, price: int, stock: Option<int>) {
    category in CategoryIds(cs) && name != "" && PriceOk(price) && (stock.None? || stock.value >= 0)
  }

  /** The same checks for the fields a partial update sends. */
  predicate ProductEditOk(cs: seq<Category>, category: Option<Id>, name: Option<string>, price: Option<int>, stock: Option<int>) {
    && (category.None? || category.value in CategoryIds(cs))
    && (name.None? || name.value != "")
    && (price.None? || PriceOk(price.value))
    && (stock.None? || stock.value >= 0)
  }

  /** A product as created: not featured unless asked, and stock 0 unless given. */
  function NewProduct(id: Id, category: Id, name: string, description: string, price: int,
                      isFeatured: Option<bool>, stock: Option<int>, now: Time): (p: Product)
    requires stock.None? || stock.value >= 0
    ensures p.id == id && p.category == category && p.name == name && p.price == price && p.createdAt == now
    ensures p.description == description
    ensures isFeatured.None? ==> !p.isFeatured
    ensures isFeatured.Some? ==> p.isFeatured == isFeatured.value
    ensures stock.None? ==> p.stock == 0
    ensures stock.Some? ==> p.stock == stock.value
  {
    Product(id, category, name, description, price,
            if isFeatured.Some? then isFeatured.value else false,
            if stock.Some? then stock.value as nat else 0, now)
  }

  /** A partial update: the fields sent replace the stored ones; id and creation time
      are read-only. */
  function EditedProduct(p: Product, category: Option<Id>, name: Option<string>, description: Option<string>,
                         price: Option<int>, isFeatured: Option<bool>, stock: Option<int>): (r: Product)
    requires stock.None? || stock.value >= 0
    ensures r.id == p.id && r.createdAt == p.createdAt
    ensures category.None? && name.None? && description.None? && price.None? && isFeatured.None? && stock.None? ==> r == p
    ensures stock.Some? ==> r.stock == stock.value
    ensures stock.None? ==> r.stock == p.stock
    ensures category.Some? ==> r.category == category.value
    ensures category.None? ==> r.category == p.category
    ensures name.Some? ==> r.name == name.value
    ensures name.None? ==> r.name == p.name
    ensures description.Some? ==> r.description == description.value
    ensures description.None? ==> r.description == p.description
    ensures price.Some? ==> r.price == price.value
    ensures price.None? ==> r.price == p.price
    ensures isFeatured.Some? ==> r.isFeatured == isFeatured.value
    ensures isFeatured.None? ==> r.isFeatured == p.isFeatured
  {
    p.(category := if category.Some? then category.value else p.category,
       name := if name.Some? then name.value else p.name,
       description := if description.Some? then description.value else p.description,
       price := if price.Some? then price.value else p.price,
       isFeatured := if isFeatured.Some? then isFeatured.value else p.isFeatured,
       stock := if stock.Some? then stock.value as nat else p.stock)
  }

  // ---------------------------------------------------------------------------
  // Integrity of the tables
  // ---------------------------------------------------------------------------

  /** Unique ids below the counter; `unique_together = ('business', 'name')`. */
  ghost predicate CategoryTableOk(cs: seq<Category>, nextId: Id) {
    (forall c :: c in cs ==> c.id < nextId) && UniqueKeys(cs, CategoryId) && UniqueKeys(cs, CategoryKey)
  }

  /** Unique ids below the counter; each product lies in a stored category. */
  ghost predicate ProductTableOk(ps: seq<Product>, nextId: Id, cs: seq<Category>) {
    (forall p :: p in ps ==> p.id < nextId && p.category in CategoryIds(cs)) && UniqueKeys(ps, ProductId)
  }

  /** Unique ids below the counter; each view is of a stored product;
      `unique_together = ('product', 'viewer')`. */
  ghost predicate ViewTableOk(vs: seq<ProductView>, nextId: Id, ps: seq<Product>) {
    && (forall v :: v in vs ==> v.id < nextId && v.product in ProductIds(ps))
    && UniqueKeys(vs, ViewId)
    && UniqueKeys(vs, ViewKey)
  }

  ghost predicate StoreOk(cs: seq<Category>, nextC: Id, ps: seq<Product>, nextP: Id, vs: seq<ProductView>, nextV: Id) {
    CategoryTableOk(cs, nextC) && ProductTableOk(ps, nextP, cs) && ViewTableOk(vs, nextV, ps)
  }

  /** Removing a product and, by cascade, its views keeps both tables intact. */
  lemma DestroyProductKeepsTables(ps: seq<Product>, nextP: Id, cs: seq<Category>, vs: seq<ProductView>, nextV: Id, k: nat)
    requires ProductTableOk(ps, nextP, cs) && ViewTableOk(vs, nextV, ps) && k < |ps|
    ensures var gone := ps[k].id;
            ProductTableOk(RemoveAt(ps, k), nextP, cs)
            && ViewTableOk(Filter(vs, NotOfProduct(gone)), nextV, RemoveAt(ps, k))
  {
    var gone := ps[k].id;
    var ps' := RemoveAt(ps, k);
    var p := NotOfProduct(gone);
    RemoveAtMembers(ps, k);
    RemoveAtKeepsUniqueKeys(ps, ProductId, k);
    FilterKeepsUniqueKeys(vs, ViewId, p);
    FilterKeepsUniqueKeys(vs, ViewKey, p);
    forall v | v in Filter(vs, p) ensures v.product in ProductIds(ps') {
      var q :| q in ps && q.id == v.product;
      var i :| 0 <= i < |ps| && ps[i] == q;
      assert i != k by {
        assert ProductId(ps[i]) == v.product;
      }
      assert ps'[if i < k then i else i - 1] == q;
    }
  }

  /** Removing a category and, by cascade, its products and their views keeps all three
      tables intact. */
  lemma DeleteCategoryKeepsTables(cs: seq<Category>, nextC: Id, ps: seq<Product>, nextP: Id,
                                  vs: seq<ProductView>, nextV: Id, k: nat)
    requires CategoryTableOk(cs, nextC) && ProductTableOk(ps, nextP, cs) && ViewTableOk(vs, nextV, ps) && k < |cs|
    ensures var gone := cs[k].id;
            var ps' := Filter(ps, OutsideCategory(gone));
            var keep := ProductIds(ps');
            && CategoryTableOk(RemoveAt(cs, k), nextC)
            && ProductTableOk(ps', nextP, RemoveAt(cs, k))
            && ViewTableOk(Filter(vs, OfProducts(keep)), nextV, ps')
  {
    var gone := cs[k].id;
    var cs' := RemoveAt(cs, k);
    var ps' := Filter(ps, OutsideCategory(gone));
    var keep := ProductIds(ps');
    var vp := OfProducts(keep);
    RemoveAtMembers(cs, k);
    RemoveAtKeepsUniqueKeys(cs, CategoryId, k);
    RemoveAtKeepsUniqueKeys(cs, CategoryKey, k);
    FilterKeepsUniqueKeys(ps, ProductId, OutsideCategory(gone));
    FilterKeepsUniqueKeys(vs, ViewId, vp);
    FilterKeepsUniqueKeys(vs, ViewKey, vp);
    forall p | p in ps' ensures p.category in CategoryIds(cs') {
      var c :| c in cs && c.id == p.category;
      var i :| 0 <= i < |cs| && cs[i] == c;
      assert i != k by {
        assert CategoryId(cs[i]) == p.category;
      }
      assert cs'[if i < k then i else i - 1] == c;
    }
  }

  // ---------------------------------------------------------------------------
  // The store
  // ---------------------------------------------------------------------------

  class ProductStore {
    var categories: seq<Category>
    var products: seq<Product>
    var views: seq<ProductView>
    var nextCategoryId: Id
    var nextProductId: Id
    var nextViewId: Id

    ghost predicate Valid()
      reads this
    {
      StoreOk(categories, nextCategoryId, products, nextProductId, views, nextViewId)
    }

    constructor ()
      ensures Valid() && categories == [] && products == [] && views == []
    {
      categories, products, views := [], [], [];
      nextCategoryId, nextProductId, nextViewId := 1, 1, 1;
    }

    /** `ProductCategoryListCreateView.perform_create`: the category belongs to the
        requester; a second category of the same name for the same user is refused by the
        database. */
    method CreateCategory(requester: Id, name: string, description: string, now: Time) returns (st: Status)
      requires Valid()
      modifies this
      ensures Valid() && products == old(products) && views == old(views)
      ensures name == "" ==> st == BadRequest && unchanged(this)
      ensures name != "" && (exists c :: c in old(categories) && CategoryKey(c) == (requester, name)) ==>
                st == IntegrityRaised && unchanged(this)
      ensures name != "" && (forall c :: c in old(categories) ==> CategoryKey(c) != (requester, name)) ==>
                && st == Created
                && categories == old(categories) + [Category(old(nextCategoryId), requester, name, description, now)]
    {
      if name == "" {
        return BadRequest;
      }
      if exists c :: c in categories && CategoryKey(c) == (requester, name) {
        return IntegrityRaised;
      }
      var c := Category(nextCategoryId, requester, name, description, now);
      AppendKeepsUniqueKeys(categories, CategoryId, c);
      AppendKeepsUniqueKeys(categories, CategoryKey, c);
      assert CategoryIds(categories + [c]) == CategoryIds(categories) + {c.id};
      categories := categories + [c];
      nextCategoryId := nextCategoryId + 1;
      st := Created;
    }

    /** `ProductListCreateView.perform_create`: the product is stored only when the chosen
        category belongs to the requester. Otherwise the view's own refusal is discarded
        by the framework, so the answer is still 201 and nothing is stored. */
    method CreateProduct(requester: Id, category: Id, name: string, description: string, price: int,
                         isFeatured: Option<bool>, stock: Option<int>, now: Time)
      returns (st: Status)
      requires Valid()
      modifies this
      ensures Valid() && categories == old(categories) && views == old(views)
      ensures !ProductInputOk(old(categories), category, name, price, stock) ==> st == BadRequest && unchanged(this)
      ensures ProductInputOk(old(categories), category, name, price, stock) ==>
                var owner := old(categories)[CategoryIndex(old(categories), category).value].business;
                && st == Created
                && (owner != requester ==> unchanged(this))
                && (owner == requester ==>
                      products == old(products) + [NewProduct(old(nextProductId), category, name, description, price,
                                                              isFeatured, stock, now)])
    {
      if !ProductInputOk(categories, category, name, price, stock) {
        return BadRequest;
      }
      var j := CategoryIndex(categories, category).value;
      st := Created;
      if categories[j].business != requester {
        return;
      }
      var p := NewProduct(nextProductId, category, name, description, price, isFeatured, stock, now);
      AppendKeepsUniqueKeys(products, ProductId, p);
      assert ProductIds(products + [p]) == ProductIds(products) + {p.id};
      products := products + [p];
      nextProductId := nextProductId + 1;
    }

    /** `ProductDetailView.perform_update`: only the owner of the product's current
        category saves; for anyone else the answer is still 200 and nothing changes. */
    method UpdateProduct(requester: Id, pk: Id, category: Option<Id>, name: Option<string>, description: Option<string>,
                         price: Option<int>, isFeatured: Option<bool>, stock: Option<int>)
      returns (st: Status)
      requires Valid()
      modifies this
      ensures Valid() && categories == old(categories) && views == old(views)
      ensures nextProductId == old(nextProductId)
      ensures ProductIndex(old(products), pk).None? ==> st == NotFound && unchanged(this)
      ensures ProductIndex(old(products), pk).Some? && !ProductEditOk(old(categories), category, name, price, stock) ==>
                st == BadRequest && unchanged(this)
      ensures ProductIndex(old(products), pk).Some? && ProductEditOk(old(categories), category, name, price, stock) ==>
                var k := ProductIndex(old(products), pk).value;
                && st == Ok
                && (OwnerOf(old(categories), old(products)[k]) != Some(requester) ==> unchanged(this))
                && (OwnerOf(old(categories), old(products)[k]) == Some(requester) ==>
                      products == old(products)[k := EditedProduct(old(products)[k], category, name, description,
                                                                   price, isFeatured, stock)])
    {
      var found := ProductIndex(products, pk);
      if found.None? {
        return NotFound;
      }
      if !ProductEditOk(categories, category, name, price, stock) {
        return BadRequest;
      }
      var k := found.value;
      st := Ok;
      if OwnerOf(categories, products[k]) != Some(requester) {
        return;
      }
      var p := EditedProduct(products[k], category, name, description, price, isFeatured, stock);
      UpdateKeepsUniqueKeys(products, ProductId, k, p);
      assert ProductIds(products[k := p]) == ProductIds(products) by {
        assert forall q :: q in products[k := p] ==> q in products || q == p;
        assert forall i :: 0 <= i < |products| ==> products[k := p][i].id == products[i].id;
      }
      products := products[k := p];
    }

    /** `ProductDetailView.perform_destroy`: the owner removes the product and, by
        cascade, its views; anyone else gets 204 and the product stays. */
    method DestroyProduct(requester: Id, pk: Id) returns (st: Status)
      requires Valid()
      modifies this
      ensures Valid() && categories == old(categories)
      ensures nextProductId == old(nextProductId) && nextViewId == old(nextViewId)
      ensures ProductIndex(old(products), pk).None? ==> st == NotFound && unchanged(this)
      ensures ProductIndex(old(products), pk).Some? ==>
                var k := ProductIndex(old(products), pk).value;
                && st == NoContent
                && (OwnerOf(old(categories), old(products)[k]) != Some(requester) ==> unchanged(this))
                && (OwnerOf(old(categories), old(products)[k]) == Some(requester) ==>
                      && products == RemoveAt(old(products), k)
                      && (forall v :: v in views <==> v in old(views) && v.product != pk))
    {
      var found := ProductIndex(products, pk);
      if found.None? {
        return NotFound;
      }
      var k := found.value;
      st := NoContent;
      if OwnerOf(categories, products[k]) != Some(requester) {
        return;
      }
      DestroyProductKeepsTables(products, nextProductId, categories, views, nextViewId, k);
      views := Filter(views, NotOfProduct(pk));
      products := RemoveAt(products, k);
    }

    /** Deleting a category (the ORM's cascade; no view deletes categories): its products
        go, and so do their views. */
    method DeleteCategory(pk: Id) returns (st: Status)
      requires Valid()
      modifies this
      ensures Valid()
      ensures nextCategoryId == old(nextCategoryId) && nextProductId == old(nextProductId) && nextViewId == old(nextViewId)
      ensures CategoryIndex(old(categories), pk).None? ==> st == NotFound && unchanged(this)
      ensures CategoryIndex(old(categories), pk).Some? ==>
                && st == NoContent
                && categories == RemoveAt(old(categories), CategoryIndex(old(categories), pk).value)
                && (forall p :: p in products <==> p in old(products) && p.category != pk)
                && (forall v :: v in views <==> v in old(views) && v.product in ProductIds(products))
    {
      var found := CategoryIndex(categories, pk);
      if found.None? {
        return NotFound;
      }
      var k := found.value;
      var gone := categories[k].id;
      var ps := Filter(products, OutsideCategory(gone));
      var keep := ProductIds(ps);
      var vs := Filter(views, OfProducts(keep));
      var cs := RemoveAt(categories, k);
      DeleteCategoryKeepsTables(categories, nextCategoryId, products, nextProductId, views, nextViewId, k);
      assert StoreOk(cs, nextCategoryId, ps, nextProductId, vs, nextViewId);
      categories, products, views := cs, ps, vs;
      st := NoContent;
    }

    /** `ProductViewRecordView.post`: 404 for an unknown product; a second view by the same
        user is refused by the database; otherwise one view by the requester is added. */
    method RecordView(requester: Id, pk: Id, now: Time) returns (st: Status)
      requires Valid()
      modifies this
      ensures Valid() && categories == old(categories) && products == old(products)
      ensures ProductIndex(old(products), pk).None? ==> st == NotFound && unchanged(this)
      ensures ProductIndex(old(products), pk).Some? && ViewTaken(old(views), pk, requester) ==>
                st == IntegrityRaised && unchanged(this)
      ensures ProductIndex(old(products), pk).Some? && !ViewTaken(old(views), pk, requester) ==>
                st == Ok && views == old(views) + [ProductView(old(nextViewId), pk, requester, now)]
    {
      if ProductIndex(products, pk).None? {
        return NotFound;
      }
      if ViewTaken(views, pk, requester) {
        return IntegrityRaised;
      }
      var v := ProductView(nextViewId, pk, requester, now);
      assert pk in ProductIds(products) by {
        assert products[ProductIndex(products, pk).value] in products;
      }
      AppendKeepsUniqueKeys(views, ViewId, v);
      AppendKeepsUniqueKeys(views, ViewKey, v);
      views := views + [v];
      nextViewId := nextViewId + 1;
      st := Ok;
    }
  }
}

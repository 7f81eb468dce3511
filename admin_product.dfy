/**
 * The admin product endpoints (backend/handlers/admin_product.go): listing
 * with filters, create and update from one request shape with a tag list
 * and an image URL list, delete-or-deactivate, the image upload checks,
 * the featured flag and the catalogue statistics.
 */
module AdminProducts {
  import opened Wrappers
  import opened Models
  import opened Store
  import opened Http
  import Seqs
  import Text
  import Catalogue

  const SkuExists := "Product with this SKU already exists"
  const ProductNotFound := "Product not found"
  const StatusInactive := "inactive"
  const StatusDraft := "draft"
  const Deactivated := "Product deactivated (has existing orders)"
  const Deleted := "Product deleted successfully"
  const FeaturedUpdated := "Featured status updated successfully"

  /** The admin's product form as JSON; `tags` and `images` are lists here. */
  datatype ProductRequest = ProductRequest(
    name: string, description: string, price: real, category: string, stock: int,
    images: seq<string>, tags: seq<string>, sku: string, weight: real, dimensions: string,
    brand: string, status: string, isImported: bool, shippingFee: real)

  /** The `binding` tags of the request; `required` refuses a price of 0, so with `min=0` the price is positive. */
  predicate RequestValid(req: ProductRequest)
  {
    req.name != "" && req.description != "" && req.price > 0.0 && req.category != "" &&
    req.stock >= 0 && req.sku != "" && req.status in {ProductActive, StatusInactive, StatusDraft} &&
    req.shippingFee >= 0.0
  }

  /** The `tags` column: the list joined with `,`, and `""` for an empty list. */
  function TagsColumn(tags: seq<string>): (r: string)
    ensures |tags| == 0 ==> r == ""
    ensures |tags| == 1 ==> r == tags[0]
    ensures forall i :: 0 <= i < |tags| ==> Text.Contains(r, tags[i])
  {
    JoinContains(tags);
    if |tags| > 0 then Text.Join(tags, ',') else ""
  }

  lemma {:induction false} JoinContains(tags: seq<string>)
    ensures forall i :: 0 <= i < |tags| ==> Text.Contains(Text.Join(tags, ','), tags[i])
  {
    if |tags| > 1 {
      JoinContains(tags[1..]);
      var rest := Text.Join(tags[1..], ',');
      var s := tags[0] + [','] + rest;
      assert s[..|tags[0]|] == tags[0];
      Text.SliceContained(s, 0, |tags[0]|);
      Text.SliceContained(s, |tags[0]| + 1, |s|);
      assert s[|tags[0]| + 1..|s|] == rest;
      forall i | 1 <= i < |tags| ensures Text.Contains(s, tags[i]) {
        assert tags[1..][i - 1] == tags[i];
        ContainsTrans(s, rest, tags[i]);
      }
    } else if |tags| == 1 {
      Text.SliceContained(tags[0], 0, |tags[0]|);
      assert tags[0][0..|tags[0]|] == tags[0];
    }
  }

  lemma {:induction false} ContainsTrans(s: string, t: string, u: string)
    requires Text.Contains(s, t) && Text.Contains(t, u)
    ensures Text.Contains(s, u)
    decreases |s|
  {
    if Text.StartsWith(s, t) {
      StartsContains(s, t, u);
    } else {
      ContainsTrans(s[1..], t, u);
    }
  }

  lemma {:induction false} StartsContains(s: string, t: string, u: string)
    requires Text.StartsWith(s, t) && Text.Contains(t, u)
    ensures Text.Contains(s, u)
    decreases |t|
  {
    if Text.StartsWith(t, u) {
      assert s[..|u|] == t[..|u|];
    } else {
      assert |t| > 0 && |s| > 0;
      assert s[1..][..|t| - 1] == t[1..];
      StartsContains(s[1..], t[1..], u);
    }
  }

  /** The row CreateProduct stores: status from the request, no rating yet, not featured. */
  function NewProduct(req: ProductRequest, id: Id): (p: Product)
    ensures p.id == id && p.sku == req.sku && p.status == req.status && p.tags == TagsColumn(req.tags)
    ensures p.rating == 0.0 && p.reviewCount == 0 && !p.featured
    ensures p.isImported == req.isImported && p.shippingFee == req.shippingFee
  {
    Product(id, req.name, req.description, req.price, req.category, req.brand, req.sku, req.stock,
      req.status, req.weight, req.dimensions, TagsColumn(req.tags), 0.0, 0, req.isImported, req.shippingFee, false)
  }

  /** UpdateProduct's new row: every request field except `is_imported` and `shipping_fee`. */
  function Edited(p: Product, req: ProductRequest): (q: Product)
    ensures q.id == p.id && q.isImported == p.isImported && q.shippingFee == p.shippingFee && q.featured == p.featured
    ensures q.rating == p.rating && q.reviewCount == p.reviewCount
    ensures q.name == req.name && q.sku == req.sku && q.status == req.status && q.stock == req.stock && q.price == req.price
    ensures q.tags == TagsColumn(req.tags)
  {
    p.(name := req.name, description := req.description, price := req.price, category := req.category,
       stock := req.stock, tags := TagsColumn(req.tags), sku := req.sku, weight := req.weight,
       dimensions := req.dimensions, brand := req.brand, status := req.status)
  }

  /** Whether a product passes the admin list's category, status and search filters. */
  function Listed(category: string, status: string, search: string): Product -> bool
  {
    (p: Product) =>
      (category == "" || p.category == category) && (status == "" || p.status == status) &&
      (search == "" || Text.ILike(p.name, search) || Text.ILike(p.description, search))
  }

  /** GetProducts: every product passing the filters, in table order; empty filters do not filter. */
  function GetProducts(products: seq<Product>, category: string, status: string, search: string): (r: seq<Product>)
    ensures forall i :: 0 <= i < |r| ==> (r[i] in products &&
      (category == "" || r[i].category == category) && (status == "" || r[i].status == status) &&
      (search == "" || Text.ILike(r[i].name, search) || Text.ILike(r[i].description, search)))
    ensures forall i :: 0 <= i < |products| && Listed(category, status, search)(products[i]) ==> products[i] in r
    ensures Seqs.IsSubsequence(r, products)
    ensures category == "" && status == "" && search == "" ==> r == products
  {
    var r := Seqs.Filter(products, Listed(category, status, search));
    Seqs.FilterSubsequence(products, Listed(category, status, search));
    assert category == "" && status == "" && search == "" ==> r == products by {
      if category == "" && status == "" && search == "" {
        Seqs.FilterAll(products, Listed(category, status, search));
      }
    }
    r
  }

  /**
   * CreateProduct: a request failing the binding rules is refused; a SKU in
   * use is a conflict; otherwise the product is stored, then one image row
   * per non-empty URL with the first URL's row primary.
   */
  method CreateProduct(db: Database, req: ProductRequest) returns (st: Status, product: Option<Product>)
    modifies db`products, db`images, db`nextId
    ensures !RequestValid(req) ==> st == InvalidRequest && product.None? && unchanged(db)
    ensures RequestValid(req) && Catalogue.SkuHolder(old(db.products), req.sku, None).Some? ==>
      st == Conflict(SkuExists) && product.None? && unchanged(db)
    ensures st.Success() <==> RequestValid(req) && Catalogue.SkuHolder(old(db.products), req.sku, None).None?
    ensures st.Success() ==>
      var p := NewProduct(req, old(db.nextId));
      var rows := Catalogue.NewImages(p.id, req.images, req.name, old(db.nextId) + 1);
      st == Created("") && product == Some(p) && db.products == old(db.products) + [p] &&
      db.images == old(db.images) + rows && db.nextId == old(db.nextId) + 1 + |rows|
    ensures Catalogue.Valid(old(db.products), old(db.nextId)) ==> Catalogue.Valid(db.products, db.nextId)
    ensures Catalogue.ImagesValid(old(db.images), old(db.nextId)) ==> Catalogue.ImagesValid(db.images, db.nextId)
  {
    if !RequestValid(req) {
      return InvalidRequest, None;
    }
    if Catalogue.SkuHolder(db.products, req.sku, None).Some? {
      return Conflict(SkuExists), None;
    }
    var p := NewProduct(req, db.nextId);
    InsertProduct(db, p, req);
    return Created(""), Some(p);
  }

  /** The writes of CreateProduct: the product row, then its image rows with the ids after it. */
  method InsertProduct(db: Database, p: Product, req: ProductRequest)
    requires p.id == db.nextId && Catalogue.SkuHolder(db.products, p.sku, None).None?
    modifies db`products, db`images, db`nextId
    ensures var rows := Catalogue.NewImages(p.id, req.images, req.name, old(db.nextId) + 1);
      db.products == old(db.products) + [p] && db.images == old(db.images) + rows &&
      db.nextId == old(db.nextId) + 1 + |rows|
    ensures Catalogue.Valid(old(db.products), old(db.nextId)) ==> Catalogue.Valid(db.products, db.nextId)
    ensures Catalogue.ImagesValid(old(db.images), old(db.nextId)) ==> Catalogue.ImagesValid(db.images, db.nextId)
  {
    ghost var products, images, nextId := db.products, db.images, db.nextId;
    ghost var rows := Catalogue.NewImages(p.id, req.images, req.name, nextId + 1);
    if Catalogue.Valid(products, nextId) {
      Catalogue.AppendKeepsValid(products, nextId, p);
      Catalogue.ValidRaise(products + [p], nextId + 1, nextId + 1 + |rows|);
    }
    if Catalogue.ImagesValid(images, nextId) {
      Catalogue.AddNewProductImages(images, nextId, req.images, req.name);
    }
    db.products := db.products + [p];
    db.nextId := db.nextId + 1;
    Catalogue.CreateImages(db, p.id, req.images, req.name);
    assert db.products == products + [p] && db.images == images + rows && db.nextId == nextId + 1 + |rows|;
  }

  /**
   * UpdateProduct: after the binding rules and the lookup, a changed SKU
   * held by another product is a conflict. The row takes the request's
   * fields; its images are replaced only when the request lists any.
   */
  method UpdateProduct(db: Database, productId: Id, req: ProductRequest) returns (st: Status, product: Option<Product>)
    modifies db`products, db`images, db`nextId
    ensures !RequestValid(req) ==> st == InvalidRequest && product.None? && unchanged(db)
    ensures RequestValid(req) && ProductIndex(old(db.products), productId).None? ==>
      st == NotFound(ProductNotFound) && product.None? && unchanged(db)
    ensures RequestValid(req) && ProductIndex(old(db.products), productId).Some? ==>
      var k := ProductIndex(old(db.products), productId).value;
      var p := old(db.products)[k];
      if req.sku != p.sku && Catalogue.SkuHolder(old(db.products), req.sku, Some(productId)).Some? then
        st == Conflict(SkuExists) && product.None? && unchanged(db)
      else
        st == Ok("") && product == Some(Edited(p, req)) && db.products == old(db.products)[k := Edited(p, req)] &&
        (|req.images| == 0 ==> db.images == old(db.images) && db.nextId == old(db.nextId)) &&
        (|req.images| > 0 ==>
          var rows := Catalogue.NewImages(productId, req.images, req.name, old(db.nextId));
          db.images == Seqs.Filter(old(db.images), Catalogue.OtherProducts(productId)) + rows &&
          db.nextId == old(db.nextId) + |rows|)
    ensures Catalogue.Valid(old(db.products), old(db.nextId)) ==> Catalogue.Valid(db.products, db.nextId)
    ensures Catalogue.Valid(old(db.products), old(db.nextId)) && Catalogue.ImagesValid(old(db.images), old(db.nextId)) ==>
      Catalogue.ImagesValid(db.images, db.nextId)
  {
    if !RequestValid(req) {
      return InvalidRequest, None;
    }
    var found := ProductIndex(db.products, productId);
    if found.None? {
      return NotFound(ProductNotFound), None;
    }
    var k := found.value;
    var p := db.products[k];
    if req.sku != p.sku && Catalogue.SkuHolder(db.products, req.sku, Some(productId)).Some? {
      return Conflict(SkuExists), None;
    }
    var q := Edited(p, req);
    ghost var products, nextId := db.products, db.nextId;
    ghost var rows := Catalogue.NewImages(productId, req.images, req.name, nextId);
    ghost var later := if |req.images| > 0 then nextId + |rows| else nextId;
    if Catalogue.Valid(products, nextId) {
      Catalogue.UpdateKeepsValid(products, nextId, k, q);
      Catalogue.ValidRaise(products[k := q], nextId, later);
      assert productId < nextId;
    }
    db.products := db.products[k := q];
    if |req.images| > 0 {
      Catalogue.ReplaceImages(db, productId, req.images, req.name);
    }
    assert db.products == products[k := q] && db.nextId == later;
    return Ok(""), Some(q);
  }

  /** Whether any order item references the product. */
  predicate Ordered(orders: seq<Order>, productId: Id)
  {
    exists i, j :: 0 <= i < |orders| && 0 <= j < |orders[i].items| && orders[i].items[j].productId == productId
  }

  /**
   * DeleteProduct: a product some order item references is only marked
   * `inactive`; any other is deleted (its image rows are not touched).
   */
  method DeleteProduct(db: Database, productId: Id) returns (st: Status)
    modifies db`products
    ensures ProductIndex(old(db.products), productId).None? ==> st == NotFound(ProductNotFound) && unchanged(db)
    ensures ProductIndex(old(db.products), productId).Some? ==>
      var k := ProductIndex(old(db.products), productId).value;
      (Ordered(db.orders, productId) ==>
        st == Ok(Deactivated) && db.products == old(db.products)[k := old(db.products)[k].(status := StatusInactive)]) &&
      (!Ordered(db.orders, productId) ==>
        st == Ok(Deleted) && db.products == old(db.products)[..k] + old(db.products)[k + 1..])
    ensures forall q :: Ordered(db.orders, q) && ProductIndex(old(db.products), q).Some? ==> ProductIndex(db.products, q).Some?
    ensures Catalogue.Valid(old(db.products), db.nextId) ==> Catalogue.Valid(db.products, db.nextId)
  {
    var found := ProductIndex(db.products, productId);
    if found.None? {
      return NotFound(ProductNotFound);
    }
    var k := found.value;
    if Ordered(db.orders, productId) {
      var p := db.products[k].(status := StatusInactive);
      if Catalogue.Valid(db.products, db.nextId) {
        Catalogue.UpdateKeepsValid(db.products, db.nextId, k, p);
      }
      KeepIds(db.products, k, p);
      db.products := db.products[k := p];
      return Ok(Deactivated);
    }
    if Catalogue.Valid(db.products, db.nextId) {
      Catalogue.RemoveKeepsValid(db.products, db.nextId, k);
    }
    RemoveKeepsOthers(db.products, k);
    db.products := db.products[..k] + db.products[k + 1..];
    return Ok(Deleted);
  }

  /** Rewriting a row without changing its id keeps every id findable. */
  lemma KeepIds(products: seq<Product>, k: nat, p: Product)
    requires k < |products| && p.id == products[k].id
    ensures forall q :: ProductIndex(products, q).Some? ==> ProductIndex(products[k := p], q).Some?
  {
    forall q | ProductIndex(products, q).Some? ensures ProductIndex(products[k := p], q).Some? {
      var j := ProductIndex(products, q).value;
      assert products[k := p][j].id == q;
    }
  }

  /** Removing row `k` keeps every other id findable. */
  lemma RemoveKeepsOthers(products: seq<Product>, k: nat)
    requires k < |products|
    ensures forall q :: ProductIndex(products, q).Some? && q != products[k].id ==>
      ProductIndex(products[..k] + products[k + 1..], q).Some?
  {
    var t := products[..k] + products[k + 1..];
    forall q | ProductIndex(products, q).Some? && q != products[k].id ensures ProductIndex(t, q).Some? {
      var j := ProductIndex(products, q).value;
      assert t[if j < k then j else j - 1] == products[j];
    }
  }

  const MaxImageSize := 5 * 1024 * 1024
  const PlaceholderUrl := "https://via.placeholder.com/400x400?text=Product+Image"
  const NoImage := "No image file provided"
  const WrongType := "Only JPEG, PNG, and WebP images are allowed"
  const TooLarge := "Image size must be less than 5MB"

  /** The upload's declared `Content-Type` and its size in bytes. */
  datatype ImageFile = ImageFile(contentType: string, size: int)

  predicate AllowedType(contentType: string)
  {
    contentType in {"image/jpeg", "image/png", "image/webp"}
  }

  /**
   * UploadProductImage: a missing file, a type other than JPEG, PNG or WebP,
   * or more than 5 MiB is refused, in that order; anything else gets the
   * placeholder URL (nothing is stored).
   */
  function UploadProductImage(file: Option<ImageFile>): (r: Reply<string>)
    ensures r.status.Success() <==> file.Some? && AllowedType(file.value.contentType) && file.value.size <= MaxImageSize
    ensures r.status.Success() ==> r == Reply(Ok("Image uploaded successfully"), Some(PlaceholderUrl))
    ensures file.None? ==> r == Reply(BadRequest(NoImage), None)
    ensures file.Some? && !AllowedType(file.value.contentType) ==> r == Reply(BadRequest(WrongType), None)
    ensures file.Some? && AllowedType(file.value.contentType) && file.value.size > MaxImageSize ==>
      r == Reply(BadRequest(TooLarge), None)
  {
    match file
    case None => Reply(BadRequest(NoImage), None)
    case Some(f) =>
      if !AllowedType(f.contentType) then Reply(BadRequest(WrongType), None)
      else if f.size > MaxImageSize then Reply(BadRequest(TooLarge), None)
      else Reply(Ok("Image uploaded successfully"), Some(PlaceholderUrl))
  }

  /**
   * ToggleFeatured: a body that does not bind is refused before the lookup;
   * the flag is set to the requested value (not flipped).
   */
  method ToggleFeatured(db: Database, productId: Id, featured: Option<bool>) returns (st: Status, result: Option<bool>)
    modifies db`products
    ensures featured.None? ==> st == InvalidRequest && result.None? && unchanged(db)
    ensures featured.Some? && ProductIndex(old(db.products), productId).None? ==>
      st == NotFound(ProductNotFound) && result.None? && unchanged(db)
    ensures featured.Some? && ProductIndex(old(db.products), productId).Some? ==>
      var k := ProductIndex(old(db.products), productId).value;
      st == Ok(FeaturedUpdated) && result == featured &&
      db.products == old(db.products)[k := old(db.products)[k].(featured := featured.value)]
    ensures Catalogue.Valid(old(db.products), db.nextId) ==> Catalogue.Valid(db.products, db.nextId)
  {
    if featured.None? {
      return InvalidRequest, None;
    }
    var found := ProductIndex(db.products, productId);
    if found.None? {
      return NotFound(ProductNotFound), None;
    }
    var k := found.value;
    var p := db.products[k].(featured := featured.value);
    if Catalogue.Valid(db.products, db.nextId) {
      Catalogue.UpdateKeepsValid(db.products, db.nextId, k, p);
    }
    db.products := db.products[k := p];
    return Ok(FeaturedUpdated), featured;
  }

  /** `stock < 10 AND stock > 0`. */
  predicate LowStock(p: Product)
  {
    0 < p.stock < 10
  }

  /** `stock = 0`. */
  predicate OutOfStock(p: Product)
  {
    p.stock == 0
  }

  /** Stock below the low-stock threshold, sold out included. */
  predicate BelowTen(p: Product)
  {
    0 <= p.stock < 10
  }

  function InCategory(category: string): Product -> bool
  {
    (p: Product) => p.category == category
  }

  /** The categories of the products, each once, in order of first appearance. */
  function Categories(products: seq<Product>): (r: seq<string>)
    ensures forall i, j :: 0 <= i < j < |r| ==> r[i] != r[j]
    ensures forall i :: 0 <= i < |products| ==> products[i].category in r
    ensures forall k :: 0 <= k < |r| ==> exists i :: 0 <= i < |products| && products[i].category == r[k]
  {
    if |products| == 0 then []
    else
      var n := |products| - 1;
      var prior := Categories(products[..n]);
      assert forall i :: 0 <= i < n ==> products[..n][i] == products[i];
      if products[n].category in prior then prior else prior + [products[n].category]
  }

  datatype CategoryCount = CategoryCount(category: string, count: nat)

  datatype ProductStats = ProductStats(
    totalProducts: nat, activeProducts: nat, lowStockProducts: nat, outOfStock: nat,
    categories: seq<CategoryCount>)

  function Tally(products: seq<Product>): string -> CategoryCount
  {
    (c: string) => CategoryCount(c, Seqs.Count(products, InCategory(c)))
  }

  function IsActive(p: Product): bool
  {
    p.status == ProductActive
  }

  /** GetProductStats: the counts, and one `GROUP BY category` row per category. */
  function GetProductStats(products: seq<Product>): (r: ProductStats)
    ensures r.totalProducts == |products| && r.activeProducts <= r.totalProducts
    ensures r.activeProducts == Seqs.Count(products, IsActive)
    ensures r.lowStockProducts == Seqs.Count(products, LowStock) && r.outOfStock == Seqs.Count(products, OutOfStock)
    ensures forall i :: 0 <= i < |r.categories| ==>
      r.categories[i].count == Seqs.Count(products, InCategory(r.categories[i].category))
    ensures forall i, j :: 0 <= i < j < |r.categories| ==> r.categories[i].category != r.categories[j].category
  {
    ProductStats(|products|, Seqs.Count(products, IsActive), Seqs.Count(products, LowStock),
      Seqs.Count(products, OutOfStock), Seqs.Map(Categories(products), Tally(products)))
  }

  /** The stats' active count is the number of rows the admin list returns when filtered by status `active` alone. */
  lemma ActiveCountMatchesListing(products: seq<Product>)
    ensures GetProductStats(products).activeProducts == |GetProducts(products, "", ProductActive, "")|
  {
    Seqs.CountIsFilterLength(products, IsActive, Listed("", ProductActive, ""));
  }

  /** No category row is empty. */
  lemma CategoryRowsNonEmpty(products: seq<Product>)
    ensures forall i :: 0 <= i < |GetProductStats(products).categories| ==> GetProductStats(products).categories[i].count > 0
  {
    var cats := Categories(products);
    var rows := Seqs.Map(cats, Tally(products));
    assert GetProductStats(products).categories == rows;
    forall i | 0 <= i < |rows| ensures rows[i].count > 0 {
      var c := cats[i];
      var j :| 0 <= j < |products| && products[j].category == c;
      CountPositive(products, InCategory(c), j);
      assert rows[i] == Tally(products)(c);
    }
  }

  lemma CountPositive(products: seq<Product>, p: Product -> bool, j: int)
    requires 0 <= j < |products| && p(products[j])
    ensures Seqs.Count(products, p) > 0
  {
  }

  /** Every product's category has a row. */
  lemma CategoryRowsCover(products: seq<Product>)
    ensures forall i :: 0 <= i < |products| ==>
      exists j :: 0 <= j < |GetProductStats(products).categories| && GetProductStats(products).categories[j].category == products[i].category
  {
    var cats := Categories(products);
    var rows := GetProductStats(products).categories;
    forall i | 0 <= i < |products| ensures exists j :: 0 <= j < |rows| && rows[j].category == products[i].category {
      var j :| 0 <= j < |cats| && cats[j] == products[i].category;
      assert rows[j].category == products[i].category;
    }
  }

  /** Low stock and out of stock never overlap: together they are the products with 0 <= stock < 10. */
  lemma {:induction false} StockBucketsPartition(products: seq<Product>)
    ensures Seqs.Count(products, LowStock) + Seqs.Count(products, OutOfStock) == Seqs.Count(products, BelowTen)
  {
    if |products| > 0 {
      StockBucketsPartition(products[1..]);
    }
  }

  function Counted(c: CategoryCount): int
  {
    c.count
  }

  lemma {:induction false} TallyStep(s: seq<Product>, x: Product, cats: seq<string>)
    requires forall i, j :: 0 <= i < j < |cats| ==> cats[i] != cats[j]
    ensures Seqs.SumInt(Seqs.Map(cats, Tally(s + [x])), Counted) ==
      Seqs.SumInt(Seqs.Map(cats, Tally(s)), Counted) + (if x.category in cats then 1 else 0)
  {
    if |cats| > 0 {
      var c := cats[0];
      Seqs.CountAppend(s, [x], InCategory(c));
      assert Seqs.Count([x], InCategory(c)) == if x.category == c then 1 else 0;
      TallyStep(s, x, cats[1..]);
      assert Seqs.Map(cats, Tally(s + [x]))[1..] == Seqs.Map(cats[1..], Tally(s + [x]));
      assert Seqs.Map(cats, Tally(s))[1..] == Seqs.Map(cats[1..], Tally(s));
      assert x.category in cats <==> x.category == c || x.category in cats[1..];
      if x.category == c {
        assert c !in cats[1..];
      }
    }
  }

  /** The category rows partition the catalogue: their counts add up to the number of products. */
  lemma {:induction false} CategoryCountsCoverCatalogue(products: seq<Product>)
    ensures Seqs.SumInt(Seqs.Map(Categories(products), Tally(products)), Counted) == |products|
  {
    if |products| > 0 {
      var n := |products| - 1;
      var s, x := products[..n], products[n];
      assert products == s + [x];
      CategoryCountsCoverCatalogue(s);
      var cats := Categories(s);
      TallyStep(s, x, cats);
      if x.category !in cats {
        assert Seqs.Count(s, InCategory(x.category)) == 0;
        NewCategoryRow(s, x, cats);
      }
    }
  }

  /** A product of a category not seen before adds a row counting just it. */
  lemma NewCategoryRow(s: seq<Product>, x: Product, cats: seq<string>)
    requires Seqs.Count(s, InCategory(x.category)) == 0
    ensures Seqs.SumInt(Seqs.Map(cats + [x.category], Tally(s + [x])), Counted) ==
      Seqs.SumInt(Seqs.Map(cats, Tally(s + [x])), Counted) + 1
  {
    Seqs.CountAppend(s, [x], InCategory(x.category));
    var row := Tally(s + [x])(x.category);
    assert Seqs.Map(cats + [x.category], Tally(s + [x])) == Seqs.Map(cats, Tally(s + [x])) + [row];
    Seqs.SumIntAppend(Seqs.Map(cats, Tally(s + [x])), [row], Counted);
  }
}

/**
 * The public product endpoints (backend/handlers/products.go): the
 * paged, filtered catalogue listing and single-product lookup, and the
 * create, partial-update, delete and image endpoints of the same handler.
 * Path ids arrive already parsed. The `unique` index on the SKU column
 * (backend/models/models.go) is enforced by the database, so a duplicate
 * SKU makes the insert or save fail.
 */
module Products {
  import opened Wrappers
  import opened Models
  import opened Store
  import opened Http
  import Seqs
  import Text
  import Paging
  import Catalogue

  const ProductNotFound := "Product not found"
  const CreateFailed := "Failed to create product"
  const UpdateFailed := "Failed to update product"

  datatype ImageRequest = ImageRequest(url: string, altText: string, isPrimary: bool)

  datatype CreateProductRequest = CreateProductRequest(
    name: string, description: string, price: real, category: string, brand: string,
    sku: string, stock: int, weight: real, dimensions: string, tags: string,
    images: seq<ImageRequest>)

  /**
   * The `validate` tags (the image list is not descended into); `required`
   * refuses a price of 0, so with `min=0` the price is positive.
   */
  predicate CreateRequestValid(req: CreateProductRequest)
  {
    |req.name| >= 2 && req.price > 0.0 && req.category != "" && req.stock >= 0
  }

  /** The stored row: the request's fields, status always `active`, no rating, not imported or featured. */
  function NewProduct(req: CreateProductRequest, id: Id): (p: Product)
    ensures p.id == id && p.status == ProductActive && p.sku == req.sku && p.tags == req.tags
    ensures p.name == req.name && p.price == req.price && p.stock == req.stock && p.category == req.category
    ensures p.rating == 0.0 && p.reviewCount == 0 && !p.isImported && p.shippingFee == 0.0 && !p.featured
  {
    Product(id, req.name, req.description, req.price, req.category, req.brand, req.sku, req.stock,
      ProductActive, req.weight, req.dimensions, req.tags, 0.0, 0, false, 0.0, false)
  }

  /** The image rows of a create request: one per entry, in order, flags as requested. */
  function RequestImages(productId: Id, images: seq<ImageRequest>, firstId: Id): (r: seq<ProductImage>)
    ensures |r| == |images|
    ensures forall i :: 0 <= i < |r| ==>
      r[i] == ProductImage(firstId + i, productId, images[i].url, images[i].altText, images[i].isPrimary)
  {
    if |images| == 0 then []
    else
      var n := |images| - 1;
      RequestImages(productId, images[..n], firstId) +
        [ProductImage(firstId + n, productId, images[n].url, images[n].altText, images[n].isPrimary)]
  }

  method AddRequestImages(db: Database, productId: Id, images: seq<ImageRequest>)
    modifies db`images, db`nextId
    ensures db.images == old(db.images) + RequestImages(productId, images, old(db.nextId))
    ensures db.nextId == old(db.nextId) + |images|
  {
    for k := 0 to |images|
      invariant db.images == old(db.images) + RequestImages(productId, images[..k], old(db.nextId))
      invariant db.nextId == old(db.nextId) + k
    {
      assert images[..k + 1][..k] == images[..k];
      db.images := db.images + [ProductImage(db.nextId, productId, images[k].url, images[k].altText, images[k].isPrimary)];
      db.nextId := db.nextId + 1;
    }
    assert images[..|images|] == images;
  }

  /**
   * CreateProduct: a request failing validation is refused; an insert
   * whose SKU is already held fails on the unique index; otherwise the
   * product is stored as `active` with one image row per requested image.
   */
  method CreateProduct(db: Database, req: CreateProductRequest) returns (st: Status, product: Option<Product>)
    modifies db`products, db`images, db`nextId
    ensures !CreateRequestValid(req) ==> st == InvalidRequest && product.None? && unchanged(db)
    ensures CreateRequestValid(req) && Catalogue.SkuHolder(old(db.products), req.sku, None).Some? ==>
      st == ServerError(CreateFailed) && product.None? && unchanged(db)
    ensures st.Success() <==> CreateRequestValid(req) && Catalogue.SkuHolder(old(db.products), req.sku, None).None?
    ensures st.Success() ==>
      var p := NewProduct(req, old(db.nextId));
      st == Created("Product created successfully") && product == Some(p) &&
      db.products == old(db.products) + [p] &&
      db.images == old(db.images) + RequestImages(p.id, req.images, old(db.nextId) + 1) &&
      db.nextId == old(db.nextId) + 1 + |req.images|
    ensures Catalogue.Valid(old(db.products), old(db.nextId)) ==> Catalogue.Valid(db.products, db.nextId)
  {
    if !CreateRequestValid(req) {
      return InvalidRequest, None;
    }
    if Catalogue.SkuHolder(db.products, req.sku, None).Some? {
      return ServerError(CreateFailed), None;
    }
    var p := NewProduct(req, db.nextId);
    if Catalogue.Valid(db.products, db.nextId) {
      Catalogue.AppendKeepsValid(db.products, db.nextId, p);
    }
    db.products := db.products + [p];
    db.nextId := db.nextId + 1;
    AddRequestImages(db, p.id, req.images);
    return Created("Product created successfully"), Some(p);
  }

  /** GetProduct: the row with the id, or 404. */
  function GetProduct(products: seq<Product>, id: Id): (r: Reply<Product>)
    ensures r.status.Ok? <==> exists i :: 0 <= i < |products| && products[i].id == id
    ensures r.status.Ok? ==> r.body.Some? && r.body.value in products && r.body.value.id == id
    ensures !r.status.Ok? ==> r == Reply(NotFound(ProductNotFound), None)
  {
    match ProductIndex(products, id)
    case None => Reply(NotFound(ProductNotFound), None)
    case Some(k) => Reply(Ok(""), Some(products[k]))
  }

  /** The listing's filters; an empty value does not filter. */
  function Matches(category: string, search: string, status: string): Product -> bool
  {
    (p: Product) =>
      (category == "" || p.category == category) &&
      (search == "" || Text.ILike(p.name, search) || Text.ILike(p.description, search) || Text.ILike(p.brand, search) || Text.ILike(p.tags, search)) &&
      (status == "" || p.status == status)
  }

  datatype ProductList = ProductList(products: seq<Product>, totalPages: int, currentPage: int, total: nat, limit: int)

  /**
   * GetProducts: page 1, limit 20 and status `active` unless given (an empty
   * `status` parameter lists every status), offset (page-1)·limit, and the
   * page count by an integer division that panics, answering 500, for limit 0.
   */
  function GetProducts(products: seq<Product>, rawPage: Option<string>, rawLimit: Option<string>,
                       category: string, search: string, rawStatus: Option<string>): (r: Reply<ProductList>)
    ensures r.status.Ok? <==> Paging.QueryInt(rawLimit, 20) != 0
    ensures r.status.Ok? <==> r.body.Some?
    ensures r.body.Some? ==>
      var l := r.body.value;
      var status := rawStatus.GetOr(ProductActive);
      l.currentPage == Paging.QueryInt(rawPage, 1) && l.limit == Paging.QueryInt(rawLimit, 20) &&
      l.total == |Seqs.Filter(products, Matches(category, search, status))| &&
      l.products == Paging.Window(Seqs.Filter(products, Matches(category, search, status)), Paging.Offset(l.currentPage, l.limit), l.limit) &&
      l.totalPages == Paging.PageCount(l.total, l.limit) &&
      (l.limit >= 0 ==> |l.products| <= l.limit) &&
      (0 < l.limit && l.total + l.limit <= Paging.MaxInt64 ==>
        (l.totalPages - 1) * l.limit < l.total <= l.totalPages * l.limit) &&
      forall i :: 0 <= i < |l.products| ==> (l.products[i] in products && Matches(category, search, status)(l.products[i]))
  {
    var page := Paging.QueryInt(rawPage, 1);
    var limit := Paging.QueryInt(rawLimit, 20);
    var matching := Seqs.Filter(products, Matches(category, search, rawStatus.GetOr(ProductActive)));
    if limit == 0 then Reply(ServerError(""), None)
    else
      var rows := Paging.Window(matching, Paging.Offset(page, limit), limit);
      Paging.PageCountIsCeiling(|matching|, limit);
      Reply(Ok(""), Some(ProductList(rows, Paging.PageCount(|matching|, limit), page, |matching|, limit)))
  }

  /**
   * Every product the filters select is reachable: page `i / limit + 1` with
   * that limit lists the i-th of them, and that page is one of `totalPages`.
   */
  lemma MatchingProductOnItsPage(products: seq<Product>, category: string, search: string, rawStatus: Option<string>,
                                 limit: nat, i: nat)
    requires 0 < limit && i < |Seqs.Filter(products, Matches(category, search, rawStatus.GetOr(ProductActive)))|
    requires |Seqs.Filter(products, Matches(category, search, rawStatus.GetOr(ProductActive)))| + limit <= Paging.MaxInt64
    ensures var r := GetProducts(products, Some(Text.NatToDecimal(i / limit + 1)), Some(Text.NatToDecimal(limit)), category, search, rawStatus);
      r.status.Ok? && r.body.Some? && 1 <= r.body.value.currentPage <= r.body.value.totalPages &&
      Seqs.Filter(products, Matches(category, search, rawStatus.GetOr(ProductActive)))[i] in r.body.value.products
  {
    var matching := Seqs.Filter(products, Matches(category, search, rawStatus.GetOr(ProductActive)));
    Paging.QueryIntOfDecimal(i / limit + 1, 1);
    Paging.QueryIntOfDecimal(limit, 20);
    Paging.RowOnItsPage(matching, limit, i);
  }

  /** A partial update: each field is either absent (`nil`) or the new value. */
  datatype UpdateProductRequest = UpdateProductRequest(
    name: Option<string>, description: Option<string>, price: Option<real>, category: Option<string>,
    brand: Option<string>, sku: Option<string>, stock: Option<int>, weight: Option<real>,
    dimensions: Option<string>, tags: Option<string>, status: Option<string>)

  /**
   * The request's fields written over the row: a present field takes the
   * request's value, an absent one keeps the row's, and the columns the
   * request cannot name (id, rating, import flag, shipping fee, featured)
   * are kept.
   */
  function Patch(p: Product, req: UpdateProductRequest): (q: Product)
    ensures q.id == p.id && q.rating == p.rating && q.reviewCount == p.reviewCount
    ensures q.isImported == p.isImported && q.shippingFee == p.shippingFee && q.featured == p.featured
    ensures req.name.Some? ==> q.name == req.name.value
    ensures req.name.None? ==> q.name == p.name
    ensures req.price.Some? ==> q.price == req.price.value
    ensures req.price.None? ==> q.price == p.price
    ensures req.sku.Some? ==> q.sku == req.sku.value
    ensures req.sku.None? ==> q.sku == p.sku
    ensures req.stock.Some? ==> q.stock == req.stock.value
    ensures req.stock.None? ==> q.stock == p.stock
    ensures req.status.Some? ==> q.status == req.status.value
    ensures req.status.None? ==> q.status == p.status
  {
    p.(name := req.name.GetOr(p.name), description := req.description.GetOr(p.description),
       price := req.price.GetOr(p.price), category := req.category.GetOr(p.category),
       brand := req.brand.GetOr(p.brand), sku := req.sku.GetOr(p.sku), stock := req.stock.GetOr(p.stock),
       weight := req.weight.GetOr(p.weight), dimensions := req.dimensions.GetOr(p.dimensions),
       tags := req.tags.GetOr(p.tags), status := req.status.GetOr(p.status))
  }

  /** A request naming no field leaves the row as it was. */
  lemma EmptyPatchIsIdentity(p: Product)
    ensures Patch(p, UpdateProductRequest(None, None, None, None, None, None, None, None, None, None, None)) == p
  {
  }

  /** Sending the same partial update twice has the effect of sending it once. */
  lemma PatchIdempotent(p: Product, req: UpdateProductRequest)
    ensures Patch(Patch(p, req), req) == Patch(p, req)
  {
  }

  /** A second update's present fields win over the first's. */
  lemma PatchLastWins(p: Product, a: UpdateProductRequest, b: UpdateProductRequest)
    ensures b.stock.Some? ==> Patch(Patch(p, a), b).stock == b.stock.value
    ensures b.stock.None? ==> Patch(Patch(p, a), b).stock == Patch(p, a).stock
  {
  }

  /**
   * UpdateProduct: a body that does not bind is refused, then the lookup;
   * a save whose new SKU another product holds fails on the unique index.
   */
  method UpdateProduct(db: Database, id: Id, req: Option<UpdateProductRequest>) returns (st: Status, product: Option<Product>)
    modifies db`products
    ensures req.None? ==> st == InvalidRequest && product.None? && unchanged(db)
    ensures req.Some? && ProductIndex(old(db.products), id).None? ==>
      st == NotFound(ProductNotFound) && product.None? && unchanged(db)
    ensures req.Some? && ProductIndex(old(db.products), id).Some? ==>
      var k := ProductIndex(old(db.products), id).value;
      var q := Patch(old(db.products)[k], req.value);
      if q.sku != old(db.products)[k].sku && Catalogue.SkuHolder(old(db.products), q.sku, Some(id)).Some? then
        st == ServerError(UpdateFailed) && product.None? && unchanged(db)
      else
        st == Ok("Product updated successfully") && product == Some(q) && db.products == old(db.products)[k := q]
    ensures Catalogue.Valid(old(db.products), db.nextId) ==> Catalogue.Valid(db.products, db.nextId)
  {
    if req.None? {
      return InvalidRequest, None;
    }
    var found := ProductIndex(db.products, id);
    if found.None? {
      return NotFound(ProductNotFound), None;
    }
    var k := found.value;
    var q := Patch(db.products[k], req.value);
    if q.sku != db.products[k].sku && Catalogue.SkuHolder(db.products, q.sku, Some(id)).Some? {
      return ServerError(UpdateFailed), None;
    }
    if Catalogue.Valid(db.products, db.nextId) {
      Catalogue.UpdateKeepsValid(db.products, db.nextId, k, q);
    }
    db.products := db.products[k := q];
    return Ok("Product updated successfully"), Some(q);
  }

  function OtherId(id: Id): Product -> bool
  {
    (p: Product) => p.id != id
  }

  /** DeleteProduct: every row with the id goes, found or not, and the reply is always 200. */
  method DeleteProduct(db: Database, id: Id) returns (st: Status)
    modifies db`products
    ensures st == Ok("Product deleted successfully")
    ensures db.products == Seqs.Filter(old(db.products), OtherId(id))
    ensures forall i :: 0 <= i < |db.products| ==> db.products[i].id != id
    ensures forall i :: 0 <= i < |old(db.products)| && old(db.products)[i].id != id ==> old(db.products)[i] in db.products
  {
    db.products := Seqs.Filter(db.products, OtherId(id));
    return Ok("Product deleted successfully");
  }

  /** AddProductImage: the URL is required, then the product must exist; the primary flag is taken as sent. */
  method AddProductImage(db: Database, id: Id, req: ImageRequest) returns (st: Status, image: Option<ProductImage>)
    modifies db`images, db`nextId
    ensures req.url == "" ==> st == InvalidRequest && image.None? && unchanged(db)
    ensures req.url != "" && ProductIndex(db.products, id).None? ==>
      st == NotFound(ProductNotFound) && image.None? && unchanged(db)
    ensures st.Success() <==> req.url != "" && ProductIndex(db.products, id).Some?
    ensures st.Success() ==>
      var row := ProductImage(old(db.nextId), id, req.url, req.altText, req.isPrimary);
      st == Created("Image added successfully") && image == Some(row) &&
      db.images == old(db.images) + [row] && db.nextId == old(db.nextId) + 1
  {
    if req.url == "" {
      return InvalidRequest, None;
    }
    if ProductIndex(db.products, id).None? {
      return NotFound(ProductNotFound), None;
    }
    var row := ProductImage(db.nextId, id, req.url, req.altText, req.isPrimary);
    db.images := db.images + [row];
    db.nextId := db.nextId + 1;
    return Created("Image added successfully"), Some(row);
  }

  function NotImage(imageId: Id, productId: Id): ProductImage -> bool
  {
    (im: ProductImage) => !(im.id == imageId && im.productId == productId)
  }

  /** DeleteProductImage: only a row matching both the image id and the product id goes; always 200. */
  method DeleteProductImage(db: Database, productId: Id, imageId: Id) returns (st: Status)
    modifies db`images
    ensures st == Ok("Image deleted successfully")
    ensures db.images == Seqs.Filter(old(db.images), NotImage(imageId, productId))
    ensures forall i :: 0 <= i < |db.images| ==> !(db.images[i].id == imageId && db.images[i].productId == productId)
    ensures forall i :: 0 <= i < |old(db.images)| && old(db.images)[i].productId != productId ==> old(db.images)[i] in db.images
  {
    db.images := Seqs.Filter(db.images, NotImage(imageId, productId));
    return Ok("Image deleted successfully");
  }

  /** Adding an image with its primary flag set can give a product a second primary image. */
  lemma AddedImageCanBeSecondPrimary(images: seq<ProductImage>, row: ProductImage)
    requires Seqs.Count(images, Catalogue.PrimaryOf(row.productId)) >= 1 && row.isPrimary
    ensures !Catalogue.OnePrimaryEach(images + [row])
  {
    Seqs.CountAppend(images, [row], Catalogue.PrimaryOf(row.productId));
    assert Seqs.Count([row], Catalogue.PrimaryOf(row.productId)) == 1;
  }
}
